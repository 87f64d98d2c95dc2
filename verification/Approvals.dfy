/** Which parachain blocks reach `imports`, in which order, and whether the block approved for an enacted
    head is the block that head belongs to.
 */
module Approvals {
  import opened Ledger
  import opened ParasStorage
  import opened Protocol
  import opened Runs
  import opened Enacting

  // ---- Order of blocks through next_block, next_import and imports ----

  /** Blocks leave the builder in the order they were built: everything imported was approved and is
      older than the block approved last, which is older than the block built last. */
  ghost predicate InOrder(p: Para, slot: Slot) {
    && (forall a, b :: 0 <= a < b < |p.imports| ==> p.imports[a].serial < p.imports[b].serial)
    && (forall a :: 0 <= a < |p.imports| ==>
          p.imports[a].serial in slot.approved && Precedes(p.imports[a].serial, p, slot))
    && (slot.nextImport.Some? ==>
          slot.nextImport.value.serial in slot.approved && slot.nextImport.value.serial < p.built
          && (slot.nextBlock.Some? ==> slot.nextImport.value.serial < slot.nextBlock.value.serial))
    && (slot.nextBlock.Some? ==> slot.nextBlock.value.serial < p.built)
  }

  ghost predicate Precedes(serial: nat, p: Para, slot: Slot) {
    && serial < p.built
    && (slot.nextImport.Some? ==> serial < slot.nextImport.value.serial)
    && (slot.nextBlock.Some? ==> serial < slot.nextBlock.value.serial)
  }

  ghost predicate AllInOrder(w: World) {
    Wellformed(w) && forall i :: 0 <= i < |w.paras| ==> InOrder(w.paras[i], w.slots[i])
  }

  /** Enactment does to a slot nothing but approve it, whatever fails. */
  lemma EnactOnlyApproves(r: Relay, slots: seq<Slot>, c: Collation, parent: RelayHeader, env: EnactEnv, i: nat)
    requires |r.chain| > 0 && Wired(r.registered, |slots|) && i < |slots|
    ensures EnactOne(r, slots, c, parent, env).2[i] == slots[i]
            || EnactOne(r, slots, c, parent, env).2[i] == Approve(slots[i]).1
  {
  }

  lemma {:induction false} EnactKeepsOrder(r: Relay, slots: seq<Slot>, todo: seq<Collation>, k: nat,
                                           parent: RelayHeader,
                                           env: ImportEnv, p: Para, i: nat)
    requires |r.chain| > 0 && Wired(r.registered, |slots|) && k <= |todo| && i < |slots| && InOrder(p, slots[i])
    ensures InOrder(p, EnactFrom(r, slots, todo, k, parent, env).2[i])
    decreases |todo| - k
  {
    if k < |todo| {
      var (status, r1, slots1) := EnactOne(r, slots, todo[k], parent, EnactEnvAt(env, k));
      EnactOnlyApproves(r, slots, todo[k], parent, EnactEnvAt(env, k), i);
      ApproveKeepsOrder(p, slots[i]);
      if status.Ok? {
        EnactKeepsOrder(r1, slots1, todo, k + 1, parent, env, p, i);
      }
    }
  }

  lemma ApproveKeepsOrder(p: Para, slot: Slot)
    requires InOrder(p, slot)
    ensures InOrder(p, Approve(slot).1)
  {
  }

  lemma ImportParaKeepsOrder(p: Para, slot: Slot, answer: Answer)
    requires InOrder(p, slot) && |p.chain| > 0
    ensures InOrder(ImportPara(p, slot, answer).1, ImportPara(p, slot, answer).2)
  {
  }

  lemma StepKeepsOrder(w: World, a: Action, i: nat)
    requires AllInOrder(w) && Applies(w, a) && i < |w.paras|
    ensures InOrder(Step(w, a).1.paras[i], Step(w, a).1.slots[i])
  {
    hide EnactFrom, CollectFrom;
    assert InOrder(w.paras[i], w.slots[i]);
    match a
    case DoImportRelay(env) =>
      if w.relay.next.Some? {
        var header := w.relay.next.value;
        var imported := w.relay.(next := None, chain := ImportBest(w.relay.chain, header, env.answer),
            imports := w.relay.imports + [header]);
        EnactKeepsOrder(imported, w.slots, imported.collations, 0, Tip(imported.chain), env, w.paras[i], i);
      }
    case DoImportPara(k, answer) => ImportParaKeepsOrder(w.paras[k], w.slots[k], answer);
    case DoJudge(k, approved) => ApproveKeepsOrder(w.paras[k], w.slots[k]);
    case _ =>
  }

  /** Over every interleaving of building, approving, rejecting and importing, successful or not. */
  lemma {:induction false} RunKeepsOrder(w: World, actions: seq<Action>)
    requires AllInOrder(w) && AllApply(w, actions)
    ensures AllInOrder(Run(w, actions))
    decreases |actions|
  {
    if actions != [] {
      var next := Step(w, actions[0]).1;
      forall i | 0 <= i < |w.paras| ensures InOrder(next.paras[i], next.slots[i]) {
        StepKeepsOrder(w, actions[0], i);
      }
      RunKeepsOrder(next, actions[1..]);
    }
  }

  // ---- The block approved for an enacted head ----

  /** The builder of slot `k` builds again somewhere in the run. */
  ghost predicate Rebuilds(w: World, actions: seq<Action>, k: nat)
    requires Wellformed(w) && AllApply(w, actions)
    decreases |actions|
  {
    actions != [] &&
    (RebuildsNow(w, actions[0], k) || Rebuilds(Step(w, actions[0]).1, actions[1..], k))
  }

  ghost predicate RebuildsNow(w: World, a: Action, k: nat)
    requires Wellformed(w) && Applies(w, a)
  {
    a.DoBuildPara? && a.i == k && Step(w, a).0.Ok?
  }

  /** Before a rebuild the slot holds the collected block or, once somebody judged, nothing. */
  ghost predicate HoldsCollected(w: World, k: nat, block: Built)
    requires Wellformed(w) && k < |w.paras|
  {
    block.serial < w.paras[k].built && (w.slots[k].nextBlock.Some? ==> w.slots[k].nextBlock.value == block)
  }

  /** After a rebuild it holds nothing or a younger block. */
  ghost predicate HoldsYounger(w: World, k: nat, block: Built)
    requires Wellformed(w) && k < |w.paras|
  {
    block.serial < w.paras[k].built && (w.slots[k].nextBlock.Some? ==> w.slots[k].nextBlock.value.serial > block.serial)
  }

  /** The block waiting in a slot is the one that waited before, or none waits any more. */
  ghost predicate OnlyJudged(before: Slot, after: Slot) {
    after.nextBlock == before.nextBlock || after.nextBlock.None?
  }

  lemma {:induction false} EnactOnlyJudges(r: Relay, slots: seq<Slot>, todo: seq<Collation>, k: nat,
                                           parent: RelayHeader,
                                           env: ImportEnv, i: nat)
    requires |r.chain| > 0 && Wired(r.registered, |slots|) && k <= |todo| && i < |slots|
    ensures OnlyJudged(slots[i], EnactFrom(r, slots, todo, k, parent, env).2[i])
    decreases |todo| - k
  {
    hide EnactOne;
    if k < |todo| {
      var one := EnactOne(r, slots, todo[k], parent, EnactEnvAt(env, k));
      EnactOnlyApproves(r, slots, todo[k], parent, EnactEnvAt(env, k), i);
      if one.0.Ok? {
        EnactOnlyJudges(one.1, one.2, todo, k + 1, parent, env, i);
      }
    }
  }

  /** No call but a rebuild puts a block into a slot. */
  lemma StepOnlyJudges(w: World, a: Action, k: nat)
    requires Wellformed(w) && Applies(w, a) && k < |w.paras| && !RebuildsNow(w, a, k)
    ensures OnlyJudged(w.slots[k], Step(w, a).1.slots[k]) && w.paras[k].built <= Step(w, a).1.paras[k].built
  {
    hide EnactFrom, CollectFrom;
    match a
    case DoImportRelay(env) =>
      if w.relay.next.Some? {
        var header := w.relay.next.value;
        var imported := w.relay.(next := None, chain := ImportBest(w.relay.chain, header, env.answer),
                                 imports := w.relay.imports + [header]);
        EnactOnlyJudges(imported, w.slots, imported.collations, 0, Tip(imported.chain), env, k);
      }
    case _ =>
  }

  lemma {:induction false} YoungerStays(w: World, actions: seq<Action>, k: nat, block: Built)
    requires Wellformed(w) && AllApply(w, actions) && k < |w.paras| && HoldsYounger(w, k, block)
    ensures HoldsYounger(Run(w, actions), k, block)
    decreases |actions|
  {
    hide Step;
    if actions != [] {
      if RebuildsNow(w, actions[0], k) {
        RebuildIsYounger(w, actions[0], k, block);
      } else {
        StepOnlyJudges(w, actions[0], k);
      }
      YoungerStays(Step(w, actions[0]).1, actions[1..], k, block);
    }
  }

  lemma RebuildIsYounger(w: World, a: Action, k: nat, block: Built)
    requires Wellformed(w) && Applies(w, a) && k < |w.paras| && RebuildsNow(w, a, k) && block.serial < w.paras[k].built
    ensures HoldsYounger(Step(w, a).1, k, block)
  {
  }

  /** Over any calls, relay imports and failures included: until its parachain builds again a slot holds
      the collected block or none, and from then on none or a younger one. */
  lemma {:induction false} CollectedUntilRebuild(w: World, actions: seq<Action>, k: nat, block: Built)
    requires Wellformed(w) && AllApply(w, actions) && k < |w.paras| && HoldsCollected(w, k, block)
    ensures if Rebuilds(w, actions, k) then HoldsYounger(Run(w, actions), k, block)
            else HoldsCollected(Run(w, actions), k, block)
    decreases |actions|
  {
    hide Step;
    if actions != [] {
      var next := Step(w, actions[0]).1;
      if RebuildsNow(w, actions[0], k) {
        RebuildIsYounger(w, actions[0], k, block);
        YoungerStays(next, actions[1..], k, block);
      } else {
        StepOnlyJudges(w, actions[0], k);
        CollectedUntilRebuild(next, actions[1..], k, block);
      }
    }
  }

  /** Neither a relay import nor a judge reaches the slot in the run. */
  ghost predicate Unjudged(actions: seq<Action>, k: nat) {
    forall n :: 0 <= n < |actions| ==> !actions[n].DoImportRelay? && !(actions[n].DoJudge? && actions[n].i == k)
  }

  /** Left alone by judges, imports and its own builder, the slot still holds its block, so approving it
      cannot fail. */
  lemma {:induction false} UndisturbedHolds(w: World, actions: seq<Action>, k: nat, block: Built)
    requires Wellformed(w) && AllApply(w, actions) && k < |w.paras| && w.slots[k].nextBlock == Some(block)
    requires Unjudged(actions, k) && !Rebuilds(w, actions, k)
    ensures Run(w, actions).slots[k].nextBlock == Some(block)
    ensures Approve(Run(w, actions).slots[k]).0.Ok? && Approve(Run(w, actions).slots[k]).1.nextImport == Some(block)
    decreases |actions|
  {
    if actions != [] {
      var next := Step(w, actions[0]).1;
      assert !actions[0].DoImportRelay? && !(actions[0].DoJudge? && actions[0].i == k);
      assert next.slots[k].nextBlock == Some(block);
      UndisturbedHolds(next, actions[1..], k, block);
    }
  }

  /** Registration only appends. */
  lemma {:induction false} RegisteredGrows(w: World, actions: seq<Action>)
    requires Wellformed(w) && AllApply(w, actions)
    ensures w.relay.registered <= Run(w, actions).relay.registered
    decreases |actions|
  {
    if actions != [] {
      RegisteredGrows(Step(w, actions[0]).1, actions[1..]);
    }
  }

  lemma SlotForAppended(registered: seq<Entry>, more: seq<Entry>, id: Id)
    requires registered <= more && SlotFor(registered, id).Some?
    ensures SlotFor(more, id) == SlotFor(registered, id)
  {
    var j, j' := FindEntry(registered, id).value, FindEntry(more, id).value;
    assert more[j] == registered[j];
    assert j' < |registered| ==> more[j'] == registered[j'];
  }

  /** What a relay import leaves behind: every pending collation is of the block its slot holds. */
  ghost predicate Collected(w: World) {
    && Wellformed(w) && DistinctTargets(w.relay.registered, w.relay.collations)
    && forall m :: 0 <= m < |w.relay.collations| ==> CollectedAt(w, w.relay.collations[m])
  }

  ghost predicate CollectedAt(w: World, c: Collation)
    requires Wellformed(w)
  {
    var k := SlotFor(w.relay.registered, c.id);
    k.Some? && w.slots[k.value].nextBlock == Some(c.block) && c.block.serial < w.paras[k.value].built
  }

  lemma ImportEstablishesCollected(w: World, env: ImportEnv)
    requires AllInOrder(w) && DistinctIds(w.relay.registered) && DistinctSlots(w.relay.registered)
    requires Step(w, DoImportRelay(env)).0.Ok?
    ensures Collected(Step(w, DoImportRelay(env)).1)
  {
    var after := Step(w, DoImportRelay(env)).1;
    ImportLeavesPending(w.relay, w.slots, env);
    PendingHasTargets(after.relay.registered, after.slots, w.relay.next.value, |after.relay.registered|);
    forall m | 0 <= m < |after.relay.collations| ensures CollectedAt(after, after.relay.collations[m]) {
      var c := after.relay.collations[m];
      assert c in after.relay.collations;
      var k := SlotFor(after.relay.registered, c.id).value;
      StepKeepsOrder(w, DoImportRelay(env), k);
    }
  }

  /** The entry records that collation's head and, where the judge found a block, the slot's block. */
  ghost predicate Judged(e: Enactment, c: Collation, registered: seq<Entry>, slots: seq<Slot>)
    requires Wired(registered, |slots|)
  {
    var k := SlotFor(registered, c.id);
    && k.Some? && e.collected == c.block && e.candidate.id == c.id && e.candidate.paraHead == c.block.header
    && (e.approved.Some? ==> e.approved == slots[k.value].nextBlock)
  }

  ghost predicate JudgedFrom(e: Enactment, todo: seq<Collation>, k: nat, registered: seq<Entry>, slots: seq<Slot>)
    requires Wired(registered, |slots|)
  {
    exists m :: k <= m < |todo| && Judged(e, todo[m], registered, slots)
  }

  lemma EnactOneJudges(r: Relay, slots: seq<Slot>, c: Collation, parent: RelayHeader, env: EnactEnv)
    requires |r.chain| > 0 && Wired(r.registered, |slots|)
    ensures var after := EnactOne(r, slots, c, parent, env).1;
            after.enacted == r.enacted
            || (|after.enacted| == |r.enacted| + 1 && r.enacted <= after.enacted
                && Judged(after.enacted[|r.enacted|], c, r.registered, slots))
  {
    hide EnactCommit;
    if EnactCommit(r, c, parent, env).0.Ok? {
      EnactCommitOk(r, c, parent, env);
    }
    EnactCommitKeeps(r, c, parent, env);
  }

  lemma EnactCommitKeeps(r: Relay, c: Collation, parent: RelayHeader, env: EnactEnv)
    requires |r.chain| > 0
    ensures var after := EnactCommit(r, c, parent, env).1;
            after.enacted == r.enacted && after.registered == r.registered
  {
  }

  /** Every entry a loop adds, finished or not, is of one of its collations. */
  lemma {:induction false} EnactFromJudges(r: Relay, slots: seq<Slot>, todo: seq<Collation>, k: nat,
                                           parent: RelayHeader,
                                           env: ImportEnv)
    requires |r.chain| > 0 && Wired(r.registered, |slots|) && k <= |todo|
    ensures var after := EnactFrom(r, slots, todo, k, parent, env).1;
            && r.enacted <= after.enacted
            && forall n :: |r.enacted| <= n < |after.enacted|
                 ==> JudgedFrom(after.enacted[n], todo, k, r.registered, slots)
    decreases |todo| - k
  {
    hide EnactOne, Judged;
    if k < |todo| {
      var (status, r1, slots1) := EnactOne(r, slots, todo[k], parent, EnactEnvAt(env, k));
      EnactOneJudges(r, slots, todo[k], parent, EnactEnvAt(env, k));
      if status.Ok? {
        EnactFromJudges(r1, slots1, todo, k + 1, parent, env);
        var after := EnactFrom(r1, slots1, todo, k + 1, parent, env).1;
        forall n | |r1.enacted| <= n < |after.enacted|
            ensures JudgedFrom(after.enacted[n], todo, k, r.registered, slots) {
          var m :| k + 1 <= m < |todo| && Judged(after.enacted[n], todo[m], r1.registered, slots1);
          JudgedEarlier(after.enacted[n], todo[m], r, slots, todo[k], parent, EnactEnvAt(env, k));
        }
      }
    }
  }

  lemma JudgedEarlier(e: Enactment, c: Collation, r: Relay, slots: seq<Slot>, first: Collation, parent: RelayHeader,
                      env: EnactEnv)
    requires |r.chain| > 0 && Wired(r.registered, |slots|)
    requires Judged(e, c, r.registered, EnactOne(r, slots, first, parent, env).2)
    ensures Judged(e, c, r.registered, slots)
  {
    hide EnactOne;
    EnactOnlyApproves(r, slots, first, parent, env, SlotFor(r.registered, c.id).value);
  }

  /** For a collation already pending at the start, the approved block, if any, is the collated one
      exactly when its parachain did not build again. */
  ghost predicate ExactFor(w: World, actions: seq<Action>, e: Enactment, c: Collation)
    requires Wellformed(w) && AllApply(w, actions)
  {
    var k := SlotFor(w.relay.registered, c.id);
    c in w.relay.collations && e.approved.Some? ==>
      k.Some? && (e.approved == Some(c.block) <==> !Rebuilds(w, actions, k.value))
  }

  ghost predicate EntersFor(w: World, actions: seq<Action>, e: Enactment, c: Collation)
    requires Wellformed(w) && AllApply(w, actions)
  {
    && e.collected == c.block && e.candidate.id == c.id && e.candidate.paraHead == c.block.header
    && ExactFor(w, actions, e, c)
  }

  lemma ImportJudges(r: Relay, slots: seq<Slot>, env: ImportEnv)
    requires |r.chain| > 0 && Wired(r.registered, |slots|)
    ensures var after := ImportRelay(r, slots, env).1;
            && r.enacted <= after.enacted
            && forall n :: |r.enacted| <= n < |after.enacted| ==>
                 JudgedFrom(after.enacted[n], r.collations, 0, r.registered, slots)
  {
    hide EnactFrom, CollectFrom, JudgedFrom;
    if r.next.Some? {
      var imported := r.(next := None, chain := ImportBest(r.chain, r.next.value, env.answer),
          imports := r.imports + [r.next.value]);
      EnactFromJudges(imported, slots, r.collations, 0, Tip(imported.chain), env);
    }
  }

  /** The entry is of one of the given collations, exactly. */
  ghost predicate EntersForSome(w: World, actions: seq<Action>, e: Enactment, pending: seq<Collation>)
    requires Wellformed(w) && AllApply(w, actions)
  {
    exists m :: 0 <= m < |pending| && EntersFor(w, actions, e, pending[m])
  }

  /** The exact condition, with nothing assumed of what happens in between.  Collations are pending after
      a relay import; then any calls happen, relay imports that fail or succeed among them; then a relay
      import, finished or not, adds to the history.  Each entry is of a collation pending then, and if
      that collation was pending at the start and a block was approved for it, that block is the collated
      one if and only if its parachain did not build again. */
  lemma ApprovalsAreExact(w: World, actions: seq<Action>, env: ImportEnv)
    requires Collected(w) && AllApply(w, actions)
    ensures var before := Run(w, actions); var after := Step(before, DoImportRelay(env)).1;
            && before.relay.enacted <= after.relay.enacted
            && forall n :: |before.relay.enacted| <= n < |after.relay.enacted| ==>
                 EntersForSome(w, actions, after.relay.enacted[n], before.relay.collations)
  {
    hide ImportRelay, Judged, Run, EntersFor;
    var before := Run(w, actions);
    ImportJudges(before.relay, before.slots, env);
    var pending, enacted := before.relay.collations, ImportRelay(before.relay, before.slots, env).1.enacted;
    forall n | |before.relay.enacted| <= n < |enacted| ensures EntersForSome(w, actions, enacted[n], pending) {
      var m :| 0 <= m < |pending| && Judged(enacted[n], pending[m], before.relay.registered, before.slots);
      JudgedIsExact(w, actions, enacted[n], pending[m]);
    }
  }

  lemma JudgedIsExact(w: World, actions: seq<Action>, e: Enactment, c: Collation)
    requires Collected(w) && AllApply(w, actions)
    requires Judged(e, c, Run(w, actions).relay.registered, Run(w, actions).slots)
    ensures EntersFor(w, actions, e, c)
  {
    hide Rebuilds, Run;
    if c in w.relay.collations {
      assert CollectedAt(w, c);
      RegisteredGrows(w, actions);
      SlotForAppended(w.relay.registered, Run(w, actions).relay.registered, c.id);
      CollectedUntilRebuild(w, actions, SlotFor(w.relay.registered, c.id).value, c.block);
    }
  }

  // ---- The usual case: nothing but other calls between two relay imports ----

  ghost predicate NoRelayImport(actions: seq<Action>) {
    forall k :: 0 <= k < |actions| ==> !actions[k].DoImportRelay?
  }

  /** Between relay imports nothing touches the collations or the history. */
  lemma {:induction false} QuietKeepsCollations(w: World, actions: seq<Action>)
    requires Wellformed(w) && AllApply(w, actions) && NoRelayImport(actions)
    ensures Run(w, actions).relay.collations == w.relay.collations
    ensures Run(w, actions).relay.enacted == w.relay.enacted
    decreases |actions|
  {
    if actions != [] {
      QuietKeepsCollations(Step(w, actions[0]).1, actions[1..]);
    }
  }

  /** Collations are pending after a relay import; then anything but another relay import happens; then
      a relay import succeeds.  It enacts every collated header as its
      parachain's head, and the block it approves for that head is the collated block if and only if
      that parachain did not build again in between.  A judgement by anybody else cannot make the two
      differ: it makes the import fail. */
  lemma ApprovedIsCollectedIffNotRebuilt(w: World, actions: seq<Action>, env: ImportEnv) returns (added: seq<Enactment>)
    requires Collected(w) && AllApply(w, actions) && NoRelayImport(actions)
    requires Step(Run(w, actions), DoImportRelay(env)).0.Ok?
    ensures Step(Run(w, actions), DoImportRelay(env)).1.relay.enacted == w.relay.enacted + added
    ensures |added| == |w.relay.collations|
    ensures forall m :: 0 <= m < |added| ==>
              && added[m].collected == w.relay.collations[m].block
              && added[m].candidate.paraHead == w.relay.collations[m].block.header
              && added[m].approved.Some?
              && (added[m].approved == Some(added[m].collected)
                  <==> !Rebuilds(w, actions, SlotFor(w.relay.registered, w.relay.collations[m].id).value))
  {
    var before := Run(w, actions);
    QuietKeepsCollations(w, actions);
    RegisteredGrows(w, actions);
    var todo := w.relay.collations;
    forall m | 0 <= m < |todo| ensures SlotFor(before.relay.registered, todo[m].id)
        == SlotFor(w.relay.registered, todo[m].id) {
      assert CollectedAt(w, todo[m]);
      SlotForAppended(w.relay.registered, before.relay.registered, todo[m].id);
    }
    assert DistinctTargets(before.relay.registered, todo);
    var header := before.relay.next.value;
    var imported := before.relay.(next := None, chain := ImportBest(before.relay.chain, header, env.answer),
        imports := before.relay.imports + [header]);
    added := EnactFromLog(imported, before.slots, todo, 0, Tip(imported.chain), env);
    EnactedAllAt(imported, before.slots, todo, 0, Tip(imported.chain), added);
    forall m | 0 <= m < |added|
      ensures added[m].collected == todo[m].block && added[m].candidate.paraHead == todo[m].block.header
              && added[m].approved.Some?
      ensures added[m].approved == Some(added[m].collected)
              <==> !Rebuilds(w, actions, SlotFor(w.relay.registered, todo[m].id).value)
    {
      assert EnactedAt(imported, before.slots, todo[m], Tip(imported.chain), added[m]);
      assert CollectedAt(w, todo[m]);
      CollectedUntilRebuild(w, actions, SlotFor(w.relay.registered, todo[m].id).value, todo[m].block);
    }
  }
}
