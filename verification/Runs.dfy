/** Runs of the whole system: any sequence of calls on one relay-chain builder, any number of parachain
    builders and their collators, every call free to fail.
 */
module Runs {
  import opened Ledger
  import opened Externalities
  import opened ParasStorage
  import opened Protocol

  /** `slots[i]` is the storage shared by the builder `paras[i]` and its collators. */
  datatype World = World(relay: Relay, slots: seq<Slot>, paras: seq<Para>)

  datatype Action =
    | DoOnboard(entry: Entry, head: HeadData, code: Code, hash: Code -> CodeHash, fault: Fault)
    | DoUpdateHead(id: Id, head: HeadData, fault: Fault)
    | DoMutateRelay(storage: RelayStorage, fault: Fault)
    | DoBuildRelay(other: Kv, digest: nat, fails: bool)
    | DoImportRelay(env: ImportEnv)
    | DoBuildPara(i: nat, post: Kv, digest: nat, body: Body, fails: bool, leaf: Answer)
    | DoImportPara(i: nat, answer: Answer)
    | DoMutatePara(i: nat, post: Kv, fault: Fault)
    | DoJudge(i: nat, approved: bool)

  ghost predicate Wellformed(w: World) {
    && |w.slots| == |w.paras| && Wired(w.relay.registered, |w.slots|)
    && |w.relay.chain| > 0 && (forall i :: 0 <= i < |w.paras| ==> |w.paras[i].chain| > 0)
  }

  ghost predicate Applies(w: World, a: Action) {
    match a
    case DoOnboard(entry, _, _, _, _) => entry.slot < |w.paras|
    case DoBuildPara(i, _, _, _, _, _) => i < |w.paras|
    case DoImportPara(i, _) => i < |w.paras|
    case DoMutatePara(i, _, _) => i < |w.paras|
    case DoJudge(i, _) => i < |w.paras|
    case _ => true
  }

  ghost function Step(w: World, a: Action): (result: (Status, World))
    requires Wellformed(w) && Applies(w, a)
    ensures Wellformed(result.1) && |result.1.paras| == |w.paras|
  {
    match a
    case DoOnboard(entry, head, code, hash, fault) =>
      var (status, r) := OnboardPara(w.relay, entry, head, code, hash, fault);
      (status, w.(relay := r))
    case DoUpdateHead(id, head, fault) =>
      var (status, r) := UpdateParaHead(w.relay, id, head, fault);
      (status, w.(relay := r))
    case DoMutateRelay(post, fault) =>
      var (status, r) := MutateRelay(w.relay, post, fault);
      (status, w.(relay := r))
    case DoBuildRelay(other, digest, fails) =>
      var (status, r) := BuildRelay(w.relay, other, digest, fails);
      (status, w.(relay := r))
    case DoImportRelay(env) =>
      var (status, r, slots) := ImportRelay(w.relay, w.slots, env);
      (status, w.(relay := r, slots := slots))
    case DoBuildPara(i, post, digest, body, fails, leaf) =>
      var (status, p, slot) := BuildPara(w.paras[i], w.slots[i], post, digest, body, fails, leaf);
      (status, w.(paras := w.paras[i := p], slots := w.slots[i := slot]))
    case DoImportPara(i, answer) =>
      var (status, p, slot) := ImportPara(w.paras[i], w.slots[i], answer);
      (status, w.(paras := w.paras[i := p], slots := w.slots[i := slot]))
    case DoMutatePara(i, post, fault) =>
      var (status, p) := MutatePara(w.paras[i], post, fault);
      (status, w.(paras := w.paras[i := p]))
    case DoJudge(i, approved) =>
      var (status, slot) := if approved then Approve(w.slots[i]) else (Ok, Reject(w.slots[i]));
      (status, w.(slots := w.slots[i := slot]))
  }

  ghost predicate AllApply(w: World, actions: seq<Action>) {
    forall k :: 0 <= k < |actions| ==> Applies(w, actions[k])
  }

  ghost function Run(w: World, actions: seq<Action>): (after: World)
    requires Wellformed(w) && AllApply(w, actions)
    ensures Wellformed(after) && |after.paras| == |w.paras|
    decreases |actions|
  {
    if actions == [] then w else Run(Step(w, actions[0]).1, actions[1..])
  }

  /** Only an onboarding that succeeds registers a collator, after those registered already. */
  lemma StepRegisters(w: World, a: Action)
    requires Wellformed(w) && Applies(w, a)
    ensures var (status, after) := Step(w, a);
            after.relay.registered
            == if a.DoOnboard? && status.Ok? then w.relay.registered + [a.entry] else w.relay.registered
  {
  }

  /** An onboarding that succeeds lists the id, makes it a parachain and stores its head, and changes of the
      tip's state nothing but that and the id's codes. */
  lemma OnboardWrites(w: World, entry: Entry, head: HeadData, code: Code, hash: Code -> CodeHash, fault: Fault)
    requires Wellformed(w) && entry.slot < |w.paras|
    requires Step(w, DoOnboard(entry, head, code, hash, fault)).0.Ok?
    ensures var after := Step(w, DoOnboard(entry, head, code, hash, fault)).1;
            var before, now := Tip(w.relay.chain).root, Tip(after.relay.chain).root;
            && |after.relay.chain| == |w.relay.chain|
            && (forall id :: id in now.parachains <==> id in before.parachains || id == entry.id)
            && now.lifecycles == before.lifecycles[entry.id := Parachain]
            && now.heads == before.heads[entry.id := head]
            && now == before.(parachains := now.parachains, lifecycles := now.lifecycles, heads := now.heads,
                              codes := now.codes)
  {
    var state := Tip(w.relay.chain).root;
    if entry.id !in state.parachains {
      SortMembers(state.parachains + [entry.id]);
    }
  }

  /** What waits after a relay build: a child of the tip whose state is the tip's, numbered by the block, but
      for the items outside the paras pallet. */
  lemma BuildRelayProposes(w: World, other: Kv, digest: nat, fails: bool)
    requires Wellformed(w)
    ensures var (status, after) := Step(w, DoBuildRelay(other, digest, fails)); var tip := Tip(w.relay.chain);
            && (status.Panicked? <==> w.relay.next.Some?)
            && (status == CoreBuilderFailed <==> w.relay.next.None? && fails)
            && (status.Ok? <==> w.relay.next.None? && !fails)
            && (!status.Ok? ==> after == w)
            && (status.Ok? ==>
                  var number := |w.relay.chain|;
                  var state := tip.root.(number := number, other := other);
                  after == w.(relay := w.relay.(next := Some(Header(HashOf(tip), number, state, digest)))))
  {
  }

  /** Rejecting drops the block waiting for collection and keeps the one approved; approving with nothing
      there changes nothing. */
  lemma JudgementLeaves(w: World, i: nat, approved: bool)
    requires Wellformed(w) && i < |w.paras|
    ensures var (status, after) := Step(w, DoJudge(i, approved)); var cell, now := w.slots[i], after.slots[i];
            && after.relay == w.relay && after.paras == w.paras && after.slots == w.slots[i := now]
            && now.nextBlock.None?
            && (status.Ok? <==> !approved || cell.nextBlock.Some?)
            && (status.Ok? || status == JudgeFailed)
            && now.nextImport == (if approved && cell.nextBlock.Some? then cell.nextBlock else cell.nextImport)
  {
  }

  /** A relay import with nothing waiting changes nothing; one the client refuses only takes the block. */
  lemma ImportRelayRefused(w: World, env: ImportEnv)
    requires Wellformed(w) && (w.relay.next.None? || env.answer.ImportFailed?)
    ensures Step(w, DoImportRelay(env))
            == if w.relay.next.None? then (NextBlockNotFound, w)
               else (CoreBuilderFailed, w.(relay := w.relay.(next := None)))
  {
  }

  /** A parachain build that fails leaves builder and cell; one that succeeds puts a child of the tip into
      the cell with the state its proof was taken on, whatever the cell held. */
  lemma BuildParaEnds(w: World, i: nat, post: Kv, digest: nat, body: Body, fails: bool, leaf: Answer)
    requires Wellformed(w) && i < |w.paras|
    ensures var (status, after) := Step(w, DoBuildPara(i, post, digest, body, fails, leaf));
            var p, tip := w.paras[i], Tip(w.paras[i].chain);
            if fails || leaf.ImportFailed? then (status, after) == (CoreBuilderFailed, w)
            else
              var header := Header(HashOf(tip), |p.chain|, post, digest);
              && status.Ok? && after.relay == w.relay
              && after.slots == w.slots[i := w.slots[i].(nextBlock := Some(Built(header, body, tip.root, p.built)))]
              && after.paras == w.paras[i := p.(built := p.built + 1)]
  {
    assert w.slots[i := w.slots[i]] == w.slots && w.paras[i := w.paras[i]] == w.paras;
  }

  /** A parachain import with nothing approved does nothing and succeeds; a refused one leaves the block
      approved; any other takes it and lists it. */
  lemma ImportParaEnds(w: World, i: nat, answer: Answer)
    requires Wellformed(w) && i < |w.paras|
    ensures var (status, after) := Step(w, DoImportPara(i, answer)); var p, cell := w.paras[i], w.slots[i];
            if cell.nextImport.None? then (status, after) == (Ok, w)
            else if answer.ImportFailed? then (status, after) == (CoreBuilderFailed, w)
            else
              && status.Ok? && after.relay == w.relay
              && after.slots == w.slots[i := cell.(nextImport := None)]
              && |after.paras| == |w.paras| && after.paras == w.paras[i := after.paras[i]]
              && after.paras[i].imports == p.imports + [cell.nextImport.value]
              && after.paras[i].id == p.id && after.paras[i].built == p.built
  {
    assert w.slots[i := w.slots[i]] == w.slots && w.paras[i := w.paras[i]] == w.paras;
  }

  /** A parachain commit ends as the core builder's: only its tip, or the tip itself, is affected. */
  lemma MutateParaEnds(w: World, i: nat, post: Kv, fault: Fault)
    requires Wellformed(w) && i < |w.paras|
    ensures var (status, after) := Step(w, DoMutatePara(i, post, fault)); var p := w.paras[i];
            && status == (if fault.NoFault? then Ok else CoreBuilderFailed)
            && after == w.(paras := w.paras[i := p.(chain := after.paras[i].chain)])
            && |after.paras[i].chain| == |p.chain| - (if fault.AfterRevert? && |p.chain| > 1 then 1 else 0)
            && (fault.NoFault? ==>
                  Tip(after.paras[i].chain) == Tip(p.chain).(root := post)
                  && after.paras[i].chain[..|p.chain| - 1] == p.chain[..|p.chain| - 1])
            && (!fault.NoFault? ==> after.paras[i].chain <= p.chain)
  {
  }

  /** The same of a relay commit, which a waiting block rules out and missing code makes fail once the tip is
      off. */
  lemma MutateRelayEnds(w: World, post: RelayStorage, fault: Fault)
    requires Wellformed(w)
    ensures var (status, after) := Step(w, DoMutateRelay(post, fault)); var r, chain := w.relay, after.relay.chain;
            var commits := fault.NoFault? && Coded(r); var reverts := r.next.None? && !commits && !fault.BeforeRevert?;
            && (status.Panicked? <==> r.next.Some?)
            && (status.Ok? <==> r.next.None? && commits)
            && (status == CoreBuilderFailed <==> r.next.None? && !commits)
            && after == w.(relay := r.(chain := chain))
            && |chain| == |r.chain| - (if reverts && |r.chain| > 1 then 1 else 0)
            && (status.Ok? ==>
                  Tip(chain) == Tip(r.chain).(root := post) && chain[..|r.chain| - 1] == r.chain[..|r.chain| - 1])
            && (!status.Ok? ==> chain <= r.chain)
  {
  }

  // ---- Chains: every canonical chain stays linked, and a relay block waiting for import stays a
  //      child of the best block, whatever fails ----

  ghost predicate Chained(w: World) {
    && Wellformed(w)
    && RelayChained(w.relay)
    && (forall i :: 0 <= i < |w.paras| ==> Linked(w.paras[i].chain))
  }

  lemma {:induction false} EnactKeepsLinks(r: Relay, slots: seq<Slot>, todo: seq<Collation>, k: nat,
                                           parent: RelayHeader, env: ImportEnv)
    requires |r.chain| > 0 && Wired(r.registered, |slots|) && k <= |todo| && Linked(r.chain)
    ensures Linked(EnactFrom(r, slots, todo, k, parent, env).1.chain)
    decreases |todo| - k
  {
    if k < |todo| {
      var one := EnactOne(r, slots, todo[k], parent, EnactEnvAt(env, k));
      CommitKeepsLinks(r.chain, Tip(r.chain).root, EnactEnvAt(env, k).fault);
      CommitKeepsLinks(r.chain, Tip(one.1.chain).root, NoFault);
      assert Linked(one.1.chain);
      if one.0.Ok? {
        EnactKeepsLinks(one.1, one.2, todo, k + 1, parent, env);
      }
    }
  }

  lemma ImportKeepsChain(r: Relay, slots: seq<Slot>, env: ImportEnv)
    requires Linked(r.chain) && Wired(r.registered, |slots|)
    ensures Linked(ImportRelay(r, slots, env).1.chain)
  {
    if r.next.Some? {
      var header := r.next.value;
      ImportKeepsLinks(r.chain, header, env.answer);
      var imported := r.(next := None, chain := ImportBest(r.chain, header, env.answer),
          imports := r.imports + [header]);
      EnactKeepsLinks(imported, slots, imported.collations, 0, Tip(imported.chain), env);
    }
  }

  /** The waiting block names the best block as parent and was executed on its present state. */
  ghost predicate RelayChained(r: Relay) {
    && Linked(r.chain)
    && (r.next.Some? ==>
          && IsChildOfTip(r.next.value, r.chain)
          && r.next.value.root == Execute(Tip(r.chain).root, |r.chain|, r.next.value.root.other))
  }

  lemma RelayStepKeepsChain(w: World, a: Action)
    requires Wellformed(w) && Applies(w, a) && RelayChained(w.relay)
    ensures RelayChained(Step(w, a).1.relay)
  {
    match a
    case DoOnboard(entry, head, code, hash, fault) =>
      CommitKeepsLinks(w.relay.chain, Onboard(Tip(w.relay.chain).root, entry.id, head, code, hash), fault);
    case DoUpdateHead(id, head, fault) =>
      var state := Tip(w.relay.chain).root;
      CommitKeepsLinks(w.relay.chain, state.(heads := state.heads[id := head]), fault);
    case DoMutateRelay(storage, fault) => CommitKeepsLinks(w.relay.chain, storage, fault);
    case DoImportRelay(env) => ImportKeepsChain(w.relay, w.slots, env);
    case _ =>
  }

  lemma ParaStepKeepsChain(w: World, a: Action, i: nat)
    requires Wellformed(w) && Applies(w, a) && i < |w.paras| && Linked(w.paras[i].chain)
    ensures Linked(Step(w, a).1.paras[i].chain)
  {
    match a
    case DoImportPara(k, answer) =>
      if w.slots[k].nextImport.Some? && k == i {
        ImportKeepsLinks(w.paras[k].chain, w.slots[k].nextImport.value.header, answer);
      }
    case DoMutatePara(k, post, fault) =>
      if k == i {
        CommitKeepsLinks(w.paras[k].chain, post, fault);
      }
    case _ =>
  }

  /** One call of any kind, whatever fails in it. */
  lemma StepKeepsChains(w: World, a: Action)
    requires Chained(w) && Applies(w, a)
    ensures Chained(Step(w, a).1)
  {
    RelayStepKeepsChain(w, a);
    forall i | 0 <= i < |w.paras| ensures Linked(Step(w, a).1.paras[i].chain) {
      ParaStepKeepsChain(w, a, i);
    }
  }

  lemma {:induction false} RunKeepsChains(w: World, actions: seq<Action>)
    requires Chained(w) && AllApply(w, actions)
    ensures Chained(Run(w, actions))
    decreases |actions|
  {
    if actions != [] {
      StepKeepsChains(w, actions[0]);
      RunKeepsChains(Step(w, actions[0]).1, actions[1..]);
    }
  }
}
