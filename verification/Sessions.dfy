/** Whole companion sessions: `new` once, then any mix of `evolve` and user mutations.
 */
module Sessions {
  import opened Ledger
  import opened Externalities
  import opened ParasStorage
  import opened Protocol
  import opened Runs
  import opened Enacting
  import opened Schedule

  // ---- new ----

  /** What the attribute and the environment supply for one parachain field. */
  datatype Field = Field(id: Id, code: Code, fault: Fault)

  ghost function OnboardFrom(w: World, i: nat, fields: seq<Field>, hash: Code -> CodeHash): (result: (Status, World))
    requires Wellformed(w) && i <= |fields| == |w.paras|
    ensures Wellformed(result.1) && |result.1.paras| == |w.paras|
    decreases |fields| - i
  {
    if i == |fields| then (Ok, w)
    else
      var f := fields[i];
      var (status, next) := Step(w, DoOnboard(Entry(f.id, i), Tip(w.paras[i].chain), f.code, hash, f.fault));
      if status.Ok? then OnboardFrom(next, i + 1, fields, hash) else (status, next)
  }

  ghost function New(w: World, fields: seq<Field>, hash: Code -> CodeHash, build: BuildEnv,
                     env: ImportEnv): (result: (Status, World))
    requires Wellformed(w) && |fields| == |w.paras|
    ensures Wellformed(result.1) && |result.1.paras| == |w.paras|
  {
    var (s1, w1) := OnboardFrom(w, 0, fields, hash);
    if !s1.Ok? then (s1, w1)
    else
      var (s2, w2) := Step(w1, DoBuildRelay(build.other, build.digest, build.fails));
      if !s2.Ok? then (s2, w2) else Step(w2, DoImportRelay(env))
  }

  ghost predicate DistinctFields(fields: seq<Field>) {
    forall i, j :: 0 <= i < j < |fields| ==> fields[i].id != fields[j].id
  }

  ghost predicate FieldHosted(w: World, j: nat, fields: seq<Field>, hash: Code -> CodeHash)
    requires Wellformed(w) && j < |fields| == |w.paras|
  {
    var tip := Tip(w.relay.chain).root;
    && fields[j].id in tip.parachains && fields[j].id in tip.heads && tip.heads[fields[j].id] == Tip(w.paras[j].chain)
    && (hash(fields[j].code) != ZERO_HASH ==> fields[j].id in tip.codes.current)
  }

  ghost predicate OnboardedUpTo(w: World, i: nat, fields: seq<Field>, hash: Code -> CodeHash) {
    && Chained(w) && w.relay.next.None? && w.relay.collations == [] && i <= |fields| == |w.paras|
    && |w.relay.registered| == i
    && (forall j :: 0 <= j < i ==> w.relay.registered[j] == Entry(fields[j].id, j))
    && (forall j :: 0 <= j < i ==> FieldHosted(w, j, fields, hash))
  }

  /** The node is the same and what its commits depend on has not changed. */
  ghost predicate SameNode(r: Relay, after: Relay)
    requires |r.chain| > 0
  {
    && |after.chain| > 0 && after.node == r.node
    && Tip(after.chain).root.other == Tip(r.chain).root.other
    && VersionRoot(after.chain).other == VersionRoot(r.chain).other
  }

  lemma OnboardExtends(w: World, i: nat, fields: seq<Field>, hash: Code -> CodeHash)
    requires OnboardedUpTo(w, i, fields, hash) && i < |fields| && DistinctFields(fields)
    requires fields[i].fault.NoFault? && Coded(w.relay)
    ensures var f := fields[i];
            var (status, next) := Step(w, DoOnboard(Entry(f.id, i), Tip(w.paras[i].chain), f.code, hash, f.fault));
            && status.Ok? && OnboardedUpTo(next, i + 1, fields, hash) && SameNode(w.relay, next.relay)
            && next.paras == w.paras && next.slots == w.slots && |next.relay.chain| == |w.relay.chain|
  {
    var f := fields[i];
    var tip := Tip(w.relay.chain).root;
    var post := Onboard(tip, f.id, Tip(w.paras[i].chain), f.code, hash);
    CommitKeepsLinks(w.relay.chain, post, NoFault);
    if f.id !in tip.parachains {
      SortMembers(tip.parachains + [f.id]);
    }
    var next := Step(w, DoOnboard(Entry(f.id, i), Tip(w.paras[i].chain), f.code, hash, f.fault)).1;
    assert Tip(next.relay.chain).root == post;
    forall j | 0 <= j < i + 1 ensures FieldHosted(next, j, fields, hash) {
      if j < i {
        assert FieldHosted(w, j, fields, hash) && fields[j].id != f.id;
      }
    }
  }

  lemma {:induction false} OnboardFromHosts(w: World, i: nat, fields: seq<Field>, hash: Code -> CodeHash)
    requires OnboardedUpTo(w, i, fields, hash) && DistinctFields(fields)
    requires OnboardFrom(w, i, fields, hash).0.Ok?
    ensures var after := OnboardFrom(w, i, fields, hash).1;
            && OnboardedUpTo(after, |fields|, fields, hash)
            && after.paras == w.paras && after.slots == w.slots && |after.relay.chain| == |w.relay.chain|
            && SameNode(w.relay, after.relay)
    decreases |fields| - i
  {
    if i < |fields| {
      OnboardExtends(w, i, fields, hash);
      var f := fields[i];
      OnboardFromHosts(Step(w, DoOnboard(Entry(f.id, i), Tip(w.paras[i].chain), f.code, hash, f.fault)).1, i + 1,
          fields, hash);
    }
  }

  lemma {:induction false} NothingPending(registered: seq<Entry>, slots: seq<Slot>, generationParent: RelayHeader,
                                          n: nat)
    requires n <= |registered| && Wired(registered, |slots|)
    requires forall s :: 0 <= s < |slots| ==> slots[s].nextBlock.None?
    ensures Pending(registered, slots, generationParent, n) == []
  {
    if n > 0 {
      NothingPending(registered, slots, generationParent, n - 1);
    }
  }

  ghost predicate Unused(w: World, fields: seq<Field>) {
    Chained(w) && Quiescent(w) && w.relay.registered == [] && |fields| == |w.paras| && DistinctFields(fields)
  }

  /** The world after the one block `new` builds on everything onboarded. */
  ghost function AfterNew(w: World, build: BuildEnv): (after: World)
    requires Wellformed(w)
    ensures Wellformed(after)
  {
    var header := NextHeader(w.relay.chain, build);
    w.(relay := w.relay.(chain := w.relay.chain + [header], imports := w.relay.imports + [header]))
  }

  lemma NewWorld(w: World, fields: seq<Field>, hash: Code -> CodeHash, build: BuildEnv, env: ImportEnv)
    requires Unused(w, fields) && New(w, fields, hash, build, env).0.Ok? && env.answer.Imported?
    ensures var onboarded := OnboardFrom(w, 0, fields, hash).1;
            && OnboardFrom(w, 0, fields, hash).0.Ok?
            && New(w, fields, hash, build, env).1 == AfterNew(onboarded, build)
  {
    hide CollectFrom, OnboardFrom;
    OnboardFromHosts(w, 0, fields, hash);
    var onboarded := OnboardFrom(w, 0, fields, hash).1;
    var header := NextHeader(onboarded.relay.chain, build);
    var built := onboarded.relay.(next := Some(header));
    ImportLeavesPending(built, onboarded.slots, env);
    NothingPending(built.registered, onboarded.slots, header, |built.registered|);
  }

  /** Quiescent, one relay block higher, with every parachain's head stored under its attribute's id;
      aligned exactly when the attribute ids are the ids the builders carry. */
  ghost predicate Established(w: World, after: World, fields: seq<Field>, hash: Code -> CodeHash) {
    && Wellformed(w) && Chained(after) && Quiescent(after) && after.paras == w.paras && |fields| == |w.paras|
    && |after.relay.chain| == |w.relay.chain| + 1
    && (forall j :: 0 <= j < |fields| ==> FieldHosted(after, j, fields, hash))
    && (Aligned(after) <==> forall j :: 0 <= j < |fields| ==> fields[j].id == w.paras[j].id)
  }

  /** What `new` establishes from builders not used before. */
  lemma NewEstablishes(w: World, fields: seq<Field>, hash: Code -> CodeHash, build: BuildEnv, env: ImportEnv)
    requires Unused(w, fields) && New(w, fields, hash, build, env).0.Ok? && env.answer.Imported?
    ensures Established(w, New(w, fields, hash, build, env).1, fields, hash)
  {
    OnboardFromHosts(w, 0, fields, hash);
    NewWorld(w, fields, hash, build, env);
    var onboarded := OnboardFrom(w, 0, fields, hash).1;
    var header := NextHeader(onboarded.relay.chain, build);
    ImportKeepsLinks(onboarded.relay.chain, header, Answer.Imported);
    var after := AfterNew(onboarded, build);
    assert Tip(after.relay.chain) == header;
    forall j | 0 <= j < |fields| ensures FieldHosted(after, j, fields, hash) {
      assert FieldHosted(onboarded, j, fields, hash);
    }
    NewAligns(after, fields);
  }

  lemma NewAligns(w: World, fields: seq<Field>)
    requires Wellformed(w) && |w.relay.registered| == |fields| == |w.paras| && DistinctFields(fields)
    requires forall j :: 0 <= j < |fields| ==> w.relay.registered[j] == Entry(fields[j].id, j)
    ensures Aligned(w) <==> forall j :: 0 <= j < |fields| ==> fields[j].id == w.paras[j].id
  {
  }

  /** Nothing about the node changes but the block built on what was onboarded. */
  lemma NewServes(w: World, fields: seq<Field>, hash: Code -> CodeHash, build: BuildEnv, env: ImportEnv)
    requires Unused(w, fields) && New(w, fields, hash, build, env).0.Ok? && env.answer.Imported?
    ensures New(w, fields, hash, build, env).1.relay.node == w.relay.node
    ensures CodeKept(w.relay) && w.relay.node.runtime(build.other)
            ==> CodeKept(New(w, fields, hash, build, env).1.relay)
  {
    OnboardFromHosts(w, 0, fields, hash);
    NewWorld(w, fields, hash, build, env);
    var onboarded := OnboardFrom(w, 0, fields, hash).1;
    var after := AfterNew(onboarded, build);
    assert Tip(after.relay.chain) == NextHeader(onboarded.relay.chain, build);
    assert VersionRoot(after.relay.chain) == Tip(onboarded.relay.chain).root;
  }

  /** With no code hashing to zero the aligned companion can be evolved at once. */
  lemma NewHosts(w: World, fields: seq<Field>, hash: Code -> CodeHash)
    requires Wellformed(w) && Aligned(w) && |fields| == |w.paras|
    requires forall j :: 0 <= j < |fields| ==>
               fields[j].id == w.paras[j].id && FieldHosted(w, j, fields, hash) && hash(fields[j].code) != ZERO_HASH
    ensures Hosts(Tip(w.relay.chain).root, w.relay.registered)
  {
  }

  // ---- Sessions ----

  datatype Event =
    | Evolve(rounds: seq<Round>)
    | UserMutatesRelay(storage: RelayStorage)
    | UserMutatesPara(i: nat, post: Kv)

  ghost predicate Fits(n: nat, event: Event) {
    match event
    case Evolve(rounds) => |rounds| == n
    case UserMutatesPara(i, _) => i < n
    case UserMutatesRelay(_) => true
  }

  ghost predicate AllFit(n: nat, events: seq<Event>) {
    forall e :: e in events ==> Fits(n, e)
  }

  ghost function Happen(w: World, event: Event): (result: (Status, World))
    requires Wellformed(w) && Fits(|w.paras|, event)
    ensures Wellformed(result.1) && |result.1.paras| == |w.paras|
  {
    match event
    case Evolve(rounds) => EvolveFrom(w, 0, rounds)
    case UserMutatesRelay(storage) => Step(w, DoMutateRelay(storage, NoFault))
    case UserMutatesPara(i, post) => Step(w, DoMutatePara(i, post, NoFault))
  }

  ghost function Session(w: World, events: seq<Event>): (result: (Status, World))
    requires Wellformed(w) && AllFit(|w.paras|, events)
    ensures Wellformed(result.1) && |result.1.paras| == |w.paras|
    decreases |events|
  {
    if events == [] then (Ok, w)
    else
      var (status, next) := Happen(w, events[0]);
      if status.Ok? then Session(next, events[1..]) else (status, next)
  }

  ghost function Evolves(events: seq<Event>): nat {
    if events == [] then 0 else (if events[0].Evolve? then 1 else 0) + Evolves(events[1..])
  }

  ghost predicate SessionImported(events: seq<Event>) {
    forall e :: e in events && e.Evolve? ==> EveryImported(e.rounds)
  }

  ghost predicate Ready(w: World) {
    Chained(w) && Quiescent(w) && Aligned(w)
  }

  lemma UserMutationKeepsReady(w: World, event: Event)
    requires Ready(w) && Fits(|w.paras|, event) && !event.Evolve? && Happen(w, event).0.Ok?
    ensures Ready(Happen(w, event).1)
    ensures |Happen(w, event).1.relay.chain| == |w.relay.chain|
    ensures forall j :: 0 <= j < |w.paras| ==> |Happen(w, event).1.paras[j].chain| == |w.paras[j].chain|
    ensures Happen(w, event).1.relay.registered == w.relay.registered && Happen(w, event).1.relay.node == w.relay.node
  {
    match event
    case UserMutatesRelay(storage) => CommitKeepsLinks(w.relay.chain, storage, NoFault);
    case UserMutatesPara(i, post) => CommitKeepsLinks(w.paras[i].chain, post, NoFault);
  }

  /** However a session mixes evolving with rewriting the tips of any chain, every evolve moves every
      parachain one block and the relay chain two for each of them. */
  lemma {:induction false} SessionGains(w: World, events: seq<Event>)
    requires Ready(w) && AllFit(|w.paras|, events) && SessionImported(events)
    requires Session(w, events).0.Ok?
    ensures Ready(Session(w, events).1)
    ensures |Session(w, events).1.relay.chain| == |w.relay.chain| + RelayGain(|w.paras|, events)
    ensures forall j :: 0 <= j < |w.paras| ==>
              |Session(w, events).1.paras[j].chain| == |w.paras[j].chain| + Evolves(events)
    decreases |events|
  {
    if events != [] {
      var next := Happen(w, events[0]).1;
      if events[0].Evolve? {
        EvolveFromEvolves(w, 0, events[0].rounds);
      } else {
        UserMutationKeepsReady(w, events[0]);
      }
      SessionGains(next, events[1..]);
    }
  }

  ghost function RelayGain(n: nat, events: seq<Event>): nat {
    if events == [] then 0 else (if events[0].Evolve? then 2 * n else 0) + RelayGain(n, events[1..])
  }

  lemma {:induction false} RelayGainIsProduct(n: nat, events: seq<Event>)
    ensures RelayGain(n, events) == 2 * n * Evolves(events)
  {
    if events != [] {
      RelayGainIsProduct(n, events[1..]);
    }
  }

  /** After `k` evolves of `n` parachains the relay chain is 2nk blocks higher and every parachain k. */
  lemma SessionHeights(w: World, events: seq<Event>)
    requires Ready(w) && AllFit(|w.paras|, events) && SessionImported(events)
    requires Session(w, events).0.Ok?
    ensures |Session(w, events).1.relay.chain| == |w.relay.chain| + 2 * |w.paras| * Evolves(events)
    ensures forall j :: 0 <= j < |w.paras| ==>
              |Session(w, events).1.paras[j].chain| == |w.paras[j].chain| + Evolves(events)
  {
    SessionGains(w, events);
    RelayGainIsProduct(|w.paras|, events);
  }

  /** A healthy evolve, or a mutation that takes no parachain off the relay and leaves it usable code. */
  ghost predicate KeepsServing(registered: seq<Entry>, node: Node, event: Event) {
    match event
    case Evolve(rounds) => AllHealthy(rounds, node)
    case UserMutatesRelay(storage) => Hosts(storage, registered) && node.runtime(storage.other)
    case UserMutatesPara(_, _) => true
  }

  lemma UserMutationServes(w: World, event: Event)
    requires Ready(w) && Serves(w.relay) && Fits(|w.paras|, event) && !event.Evolve?
    requires KeepsServing(w.relay.registered, w.relay.node, event)
    ensures Happen(w, event).0.Ok? && Serves(Happen(w, event).1.relay)
  {
  }

  /** In a healthy environment no session of evolves and such mutations ever fails. */
  lemma {:induction false} SessionSucceeds(w: World, events: seq<Event>)
    requires Ready(w) && Serves(w.relay) && AllFit(|w.paras|, events)
    requires forall e :: e in events ==> KeepsServing(w.relay.registered, w.relay.node, e)
    ensures Session(w, events).0.Ok? && Serves(Session(w, events).1.relay)
    decreases |events|
  {
    hide Serves;
    if events != [] {
      var next := Happen(w, events[0]).1;
      assert KeepsServing(w.relay.registered, w.relay.node, events[0]);
      if events[0].Evolve? {
        EvolveFromSucceeds(w, 0, events[0].rounds);
        EvolveFromEvolves(w, 0, events[0].rounds);
      } else {
        UserMutationServes(w, events[0]);
        UserMutationKeepsReady(w, events[0]);
      }
      SessionSucceeds(next, events[1..]);
    }
  }

  // ---- From genesis ----

  /** Builders on their genesis states, nothing built and nothing registered. */
  ghost function GenesisWorld(node: Node, relay: RelayStorage, ids: seq<Id>, bases: seq<Kv>): (w: World)
    requires |ids| == |bases|
    ensures Wellformed(w) && |w.paras| == |ids|
  {
    World(
      Relay(node, [Header(Zero, 0, relay, DEFAULT_DIGEST)], None, [], [], [], []),
      seq(|ids|, _ => Slot(None, None, {})),
      seq(|ids|, i requires 0 <= i < |ids| => Para(ids[i], [Header(Zero, 0, bases[i], DEFAULT_DIGEST)], [], 0)))
  }

  ghost function Ids(fields: seq<Field>): (ids: seq<Id>)
    ensures |ids| == |fields| && forall j :: 0 <= j < |fields| ==> ids[j] == fields[j].id
  {
    seq(|fields|, j requires 0 <= j < |fields| => fields[j].id)
  }

  ghost function Registered(fields: seq<Field>): (registered: seq<Entry>)
    ensures |registered| == |fields| && forall j :: 0 <= j < |fields| ==> registered[j] == Entry(fields[j].id, j)
  {
    seq(|fields|, j requires 0 <= j < |fields| => Entry(fields[j].id, j))
  }

  ghost predicate Onboardable(fields: seq<Field>, hash: Code -> CodeHash) {
    && DistinctFields(fields)
    && forall j :: 0 <= j < |fields| ==> fields[j].fault.NoFault? && hash(fields[j].code) != ZERO_HASH
  }

  lemma {:induction false} OnboardFromSucceeds(w: World, i: nat, fields: seq<Field>, hash: Code -> CodeHash)
    requires OnboardedUpTo(w, i, fields, hash) && Onboardable(fields, hash) && Coded(w.relay)
    ensures OnboardFrom(w, i, fields, hash).0.Ok?
    decreases |fields| - i
  {
    if i < |fields| {
      OnboardExtends(w, i, fields, hash);
      var f := fields[i];
      OnboardFromSucceeds(Step(w, DoOnboard(Entry(f.id, i), Tip(w.paras[i].chain), f.code, hash, f.fault)).1, i + 1,
          fields, hash);
    }
  }

  lemma NewSucceeds(w: World, fields: seq<Field>, hash: Code -> CodeHash, build: BuildEnv, env: ImportEnv)
    requires Unused(w, fields) && Onboardable(fields, hash) && Coded(w.relay) && !build.fails && HealthyImport(env)
    ensures New(w, fields, hash, build, env).0.Ok?
  {
    hide OnboardFrom, ImportRelay;
    OnboardFromSucceeds(w, 0, fields, hash);
    OnboardFromHosts(w, 0, fields, hash);
    var onboarded := OnboardFrom(w, 0, fields, hash).1;
    var built := onboarded.relay.(next := Some(NextHeader(onboarded.relay.chain, build)));
    forall k | 0 <= k < |built.registered| ensures Provable(Tip(built.chain).root, built.registered[k],
        onboarded.slots) {
      assert FieldHosted(onboarded, k, fields, hash);
    }
    FirstImportSucceeds(built, onboarded.slots, env);
  }

  /** From any genesis states with usable code `new` ends where `evolve` can start, archive or not. */
  lemma NewFromGenesis(node: Node, relay: RelayStorage, bases: seq<Kv>, fields: seq<Field>, hash: Code -> CodeHash,
                       build: BuildEnv, env: ImportEnv)
    requires node.runtime(relay.other) && node.runtime(build.other)
    requires |bases| == |fields| && Onboardable(fields, hash) && !build.fails && HealthyImport(env)
    ensures var w := GenesisWorld(node, relay, Ids(fields), bases);
            var (started, w1) := New(w, fields, hash, build, env);
            && started.Ok? && Ready(w1) && |w1.relay.chain| == 2
            && w1.paras == w.paras && w1.relay.registered == Registered(fields) && w1.relay.node == node
            && CodeKept(w1.relay) && Hosts(Tip(w1.relay.chain).root, w1.relay.registered)
  {
    hide New, CodeKept;
    var w := GenesisWorld(node, relay, Ids(fields), bases);
    GenesisKeepsCode(node, relay, Ids(fields), bases);
    NewSucceeds(w, fields, hash, build, env);
    NewEstablishes(w, fields, hash, build, env);
    NewServes(w, fields, hash, build, env);
    var w1 := New(w, fields, hash, build, env).1;
    assert w1.relay.registered == Registered(fields);
    NewHosts(w1, fields, hash);
  }

  /** The whole of it: on an archive, from any genesis states with usable code, for any number of
      parachains with distinct ids, `new` and every healthy session after it succeed, with exactly the
      heights expected. */
  lemma FromGenesis(node: Node, relay: RelayStorage, bases: seq<Kv>, fields: seq<Field>, hash: Code -> CodeHash,
                    build: BuildEnv, env: ImportEnv, events: seq<Event>)
    requires node.archive && node.runtime(relay.other) && node.runtime(build.other)
    requires |bases| == |fields| && Onboardable(fields, hash) && !build.fails && HealthyImport(env)
    requires AllFit(|fields|, events) && forall e :: e in events ==> KeepsServing(Registered(fields), node, e)
    ensures var w := GenesisWorld(node, relay, Ids(fields), bases);
            var (started, w1) := New(w, fields, hash, build, env);
            && started.Ok?
            && var (status, after) := Session(w1, events);
            && status.Ok? && Quiescent(after)
            && |after.relay.chain| == 2 + 2 * |fields| * Evolves(events)
            && forall j :: 0 <= j < |fields| ==> |after.paras[j].chain| == 1 + Evolves(events)
  {
    hide New, Session, CodeKept;
    var w := GenesisWorld(node, relay, Ids(fields), bases);
    NewFromGenesis(node, relay, bases, fields, hash, build, env);
    var w1 := New(w, fields, hash, build, env).1;
    HealthyIsImported(events, w1.relay.registered, node);
    SessionSucceeds(w1, events);
    SessionGains(w1, events);
    SessionHeights(w1, events);
  }

  lemma GenesisKeepsCode(node: Node, relay: RelayStorage, ids: seq<Id>, bases: seq<Kv>)
    requires |ids| == |bases| && node.runtime(relay.other)
    ensures CodeKept(GenesisWorld(node, relay, ids, bases).relay) && Coded(GenesisWorld(node, relay, ids, bases).relay)
  {
  }

  lemma HealthyIsImported(events: seq<Event>, registered: seq<Entry>, node: Node)
    requires forall e :: e in events ==> KeepsServing(registered, node, e)
    ensures SessionImported(events)
  {
    forall e | e in events && e.Evolve? ensures EveryImported(e.rounds) {
      assert KeepsServing(registered, node, e);
    }
  }
}
