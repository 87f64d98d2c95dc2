/** Runs whose relay-chain calls succeed and whose relay imports are answered `Imported`; parachain calls
    may still fail.  Heights, the list of parachains and the enacted candidates along such runs.
 */
module Coverage {
  import opened Ledger
  import opened Externalities
  import opened ParasStorage
  import opened Protocol
  import opened Runs
  import opened Enacting

  /** Relay-chain calls succeed and relay imports are answered `Imported`. */
  ghost predicate Clean(w: World, a: Action)
    requires Wellformed(w)
  {
    Applies(w, a) &&
    match a
    case DoImportRelay(env) => env.answer.Imported? && Step(w, a).0.Ok?
    case DoMutateRelay(_, _) => Step(w, a).0.Ok?
    case DoOnboard(_, _, _, _, _) => Step(w, a).0.Ok?
    case DoUpdateHead(_, _, _) => Step(w, a).0.Ok?
    case DoBuildRelay(_, _, _) => Step(w, a).0.Ok?
    case _ => true
  }

  ghost predicate CleanRun(w: World, actions: seq<Action>)
    requires Wellformed(w) && AllApply(w, actions)
    decreases |actions|
  {
    actions == [] || (Clean(w, actions[0]) && CleanRun(Step(w, actions[0]).1, actions[1..]))
  }

  /** A change of storage that leaves the list of parachains, and the presence of heads, alone. */
  ghost predicate Respects(pre: RelayStorage, post: RelayStorage) {
    post.parachains == pre.parachains && pre.heads.Keys <= post.heads.Keys
  }

  /** What covering needs besides: the user's own mutations respect the list. */
  ghost predicate RespectfulRun(w: World, actions: seq<Action>)
    requires Wellformed(w) && AllApply(w, actions)
    decreases |actions|
  {
    actions == [] ||
    ((actions[0].DoMutateRelay? ==> Respects(Tip(w.relay.chain).root, actions[0].storage))
     && RespectfulRun(Step(w, actions[0]).1, actions[1..]))
  }

  ghost predicate Covers(r: Relay)
    requires |r.chain| > 0
  {
    var tip := Tip(r.chain).root;
    && StrictlySorted(tip.parachains)
    && (forall j :: 0 <= j < |r.registered| ==> r.registered[j].id in tip.parachains && r.registered[j].id in tip.heads)
  }

  /** Every pending collation was collected at the current height, for a registered parachain. */
  ghost predicate AtTip(r: Relay) {
    forall c :: c in r.collations ==> c.generationParent.number == |r.chain| - 1 && FindEntry(r.registered, c.id).Some?
  }

  /** The candidate was backed in the block right before its relay parent. */
  ghost predicate Consecutive(e: Enactment) {
    e.candidate.relayParentNumber == e.candidate.backedInNumber + 1
  }

  ghost predicate Current(r: Relay) {
    RelayChained(r) && AtTip(r) && forall e :: e in r.enacted ==> Consecutive(e)
  }

  // ---- Enactment ----

  /** Whatever an enactment does, the list of parachains stays and its history entry is determined. */
  ghost predicate Entered(e: Enactment, parachains: seq<Id>, parent: RelayHeader, todo: seq<Collation>) {
    exists m :: 0 <= m < |todo| &&
      e.candidate.id == todo[m].id && e.candidate.relayParentNumber == parent.number
      && e.candidate.backedInNumber == todo[m].generationParent.number
      && Position(parachains, e.candidate.id) == Some(e.candidate.core)
  }

  /** One enactment adds at most one entry, whatever fails in it; only what fails stops the loop, so where
      it goes on the list is as it was. */
  lemma EnactOneCases(r: Relay, slots: seq<Slot>, todo: seq<Collation>, k: nat, parent: RelayHeader, env: EnactEnv)
    requires |r.chain| > 0 && Wired(r.registered, |slots|) && k < |todo|
    ensures var (status, after, _) := EnactOne(r, slots, todo[k], parent, env);
            var list := Tip(r.chain).root.parachains;
            && (|| after.enacted == r.enacted
                || (|after.enacted| == |r.enacted| + 1 && r.enacted <= after.enacted
                    && Entered(after.enacted[|r.enacted|], list, parent, todo)))
            && (status.Ok? ==> Tip(after.chain).root.parachains == list)
  {
    var (status, after, candidate) := EnactCommit(r, todo[k], parent, env);
    if status.Ok? {
      EnactCommitOk(r, todo[k], parent, env);
      var j := FindEntry(r.registered, todo[k].id);
      if j.Some? {
        var e := Enactment(candidate.value, todo[k].block, slots[r.registered[j.value].slot].nextBlock);
        assert EnactOne(r, slots, todo[k], parent, env).1.enacted == r.enacted + [e];
        assert Entered(e, Tip(r.chain).root.parachains, parent, todo);
      }
    }
  }

  /** Every entry a loop adds, finished or not. */
  lemma {:induction false} EnactFromEntries(r: Relay, slots: seq<Slot>, todo: seq<Collation>, k: nat,
                                            parent: RelayHeader, env: ImportEnv)
    requires |r.chain| > 0 && Wired(r.registered, |slots|) && k <= |todo|
    ensures var after := EnactFrom(r, slots, todo, k, parent, env).1;
            && r.enacted <= after.enacted
            && forall n :: |r.enacted| <= n < |after.enacted| ==>
                 Entered(after.enacted[n], Tip(r.chain).root.parachains, parent, todo)
    decreases |todo| - k
  {
    hide EnactOne, Entered;
    if k < |todo| {
      EnactOneCases(r, slots, todo, k, parent, EnactEnvAt(env, k));
      var (status, r1, slots1) := EnactOne(r, slots, todo[k], parent, EnactEnvAt(env, k));
      if status.Ok? {
        EnactFromEntries(r1, slots1, todo, k + 1, parent, env);
      }
    }
  }

  /** A successful loop keeps height, links, list and the presence of heads. */
  lemma {:induction false} EnactFromKeeps(r: Relay, slots: seq<Slot>, todo: seq<Collation>, k: nat, parent: RelayHeader,
                                          env: ImportEnv)
    requires |r.chain| > 0 && Wired(r.registered, |slots|) && k <= |todo|
    requires EnactFrom(r, slots, todo, k, parent, env).0.Ok?
    ensures var after := EnactFrom(r, slots, todo, k, parent, env).1;
            && |after.chain| == |r.chain|
            && Respects(Tip(r.chain).root, Tip(after.chain).root)
    decreases |todo| - k
  {
    if k < |todo| {
      EnactOneOk(r, slots, todo[k], parent, EnactEnvAt(env, k));
      var (_, r1, slots1) := EnactOne(r, slots, todo[k], parent, EnactEnvAt(env, k));
      EnactFromKeeps(r1, slots1, todo, k + 1, parent, env);
    }
  }

  lemma {:induction false} CollectFromEntries(r: Relay, slots: seq<Slot>, j: nat, generationParent: RelayHeader,
                                              env: ImportEnv)
    requires |r.chain| > 0 && Wired(r.registered, |slots|) && j <= |r.registered|
    ensures forall c :: c in CollectFrom(r, slots, j, generationParent, env).1.collations ==>
              c in r.collations || (c.generationParent == generationParent && FindEntry(r.registered, c.id).Some?)
    decreases |r.registered| - j
  {
    if j < |r.registered| {
      var (status, r1) := CollectOne(r, slots, r.registered[j], generationParent, CollectEnvAt(env, j));
      if status.Ok? {
        CollectFromEntries(r1, slots, j + 1, generationParent, env);
      }
    }
  }

  ghost function Imported(r: Relay): (after: Relay)
    requires r.next.Some? && |r.chain| > 0
    ensures |after.chain| > 0
  {
    r.(next := None, chain := r.chain + [r.next.value], imports := r.imports + [r.next.value])
  }

  lemma ImportedCovers(r: Relay)
    requires RelayChained(r) && Covers(r) && r.next.Some?
    ensures Covers(Imported(r)) && Tip(Imported(r).chain) == r.next.value
  {
    assert Tip(Imported(r).chain) == r.next.value;
  }

  lemma EnteredIsConsecutive(todo: seq<Collation>, parent: RelayHeader, parachains: seq<Id>, enacted: seq<Enactment>,
                             before: seq<Enactment>)
    requires forall c :: c in todo ==> c.generationParent.number + 1 == parent.number
    requires forall e :: e in before ==> Consecutive(e)
    requires before <= enacted
    requires forall n :: |before| <= n < |enacted| ==> Entered(enacted[n], parachains, parent, todo)
    ensures forall e :: e in enacted ==> Consecutive(e)
  {
    forall e | e in enacted ensures Consecutive(e) {
      var n :| 0 <= n < |enacted| && enacted[n] == e;
      if n >= |before| {
        var m :| 0 <= m < |todo| && e.candidate.backedInNumber == todo[m].generationParent.number
                 && e.candidate.relayParentNumber == parent.number;
        assert todo[m] in todo;
      }
    }
  }

  /** The enactment half of a clean import. */
  lemma CleanEnact(r: Relay, slots: seq<Slot>, env: ImportEnv)
    requires Wired(r.registered, |slots|) && Current(r) && r.next.Some?
    requires ForceEnact(Imported(r), slots, env).0.Ok?
    ensures var after := ForceEnact(Imported(r), slots, env).1;
            && |after.chain| == |r.chain| + 1 && Linked(after.chain)
            && (forall e :: e in after.enacted ==> Consecutive(e))
            && Respects(Tip(r.chain).root, Tip(after.chain).root)
  {
    hide EnactFrom;
    var imported := Imported(r);
    var parent := Tip(imported.chain);
    assert parent == r.next.value;
    assert Linked(imported.chain) by {
      ImportKeepsLinks(r.chain, r.next.value, Answer.Imported);
    }
    EnactKeepsLinks(imported, slots, r.collations, 0, parent, env);
    EnactFromKeeps(imported, slots, r.collations, 0, parent, env);
    EnactFromEntries(imported, slots, r.collations, 0, parent, env);
    var after := ForceEnact(imported, slots, env).1;
    EnteredIsConsecutive(r.collations, parent, parent.root.parachains, after.enacted, r.enacted);
  }

  /** One successful, imported relay block: one block higher. */
  lemma CleanImport(r: Relay, slots: seq<Slot>, env: ImportEnv)
    requires Wired(r.registered, |slots|) && Current(r) && env.answer.Imported?
    requires ImportRelay(r, slots, env).0.Ok?
    ensures |ImportRelay(r, slots, env).1.chain| == |r.chain| + 1
    ensures Current(ImportRelay(r, slots, env).1)
    ensures Respects(Tip(r.chain).root, Tip(ImportRelay(r, slots, env).1.chain).root)
  {
    CleanEnact(r, slots, env);
    var (_, enacted, slots') := ForceEnact(Imported(r), slots, env);
    CollectFromEntries(enacted, slots', 0, r.next.value, env);
  }

  lemma CleanMutate(r: Relay, post: RelayStorage)
    requires Current(r) && r.next.None?
    ensures Current(r.(chain := RewriteTip(r.chain, post)))
    ensures |RewriteTip(r.chain, post)| == |r.chain|
  {
    CommitKeepsLinks(r.chain, post, NoFault);
  }

  lemma CleanRegister(r: Relay, entry: Entry)
    requires Current(r)
    ensures Current(r.(registered := r.registered + [entry]))
  {
    var after := r.(registered := r.registered + [entry]);
    forall c | c in after.collations ensures FindEntry(after.registered, c.id).Some? {
      var j := FindEntry(r.registered, c.id).value;
      assert after.registered[j].id == c.id;
    }
  }

  ghost function Gain(a: Action): nat {
    if a.DoImportRelay? then 1 else 0
  }

  lemma CleanStep(w: World, a: Action)
    requires Wellformed(w) && Current(w.relay) && Clean(w, a)
    ensures Current(Step(w, a).1.relay)
    ensures |Step(w, a).1.relay.chain| == |w.relay.chain| + Gain(a)
  {
    hide ImportRelay, Current;
    var tip := Tip(w.relay.chain).root;
    match a
    case DoOnboard(entry, head, code, hash, _) =>
      var post := Onboard(tip, entry.id, head, code, hash);
      CleanMutate(w.relay, post);
      CleanRegister(w.relay.(chain := RewriteTip(w.relay.chain, post)), entry);
    case DoUpdateHead(id, head, _) => CleanMutate(w.relay, tip.(heads := tip.heads[id := head]));
    case DoMutateRelay(storage, _) => CleanMutate(w.relay, storage);
    case DoImportRelay(env) => CleanImport(w.relay, w.slots, env);
    case DoBuildRelay(other, digest, _) => CleanBuild(w.relay, other, digest);
    case _ =>
  }

  lemma CleanBuild(r: Relay, other: Kv, digest: nat)
    requires Current(r) && r.next.None?
    ensures Current(r.(next := Some(Child(r.chain, Execute(Tip(r.chain).root, |r.chain|, other), digest))))
  {
  }

  lemma CoveringStep(w: World, a: Action)
    requires Wellformed(w) && Current(w.relay) && Covers(w.relay) && Clean(w, a)
    requires a.DoMutateRelay? ==> Respects(Tip(w.relay.chain).root, a.storage)
    ensures Covers(Step(w, a).1.relay)
  {
    hide ImportRelay, Current;
    var tip := Tip(w.relay.chain).root;
    match a
    case DoOnboard(entry, _, _, _, _) => AddParachainKeepsSorted(tip.parachains, entry.id);
    case DoImportRelay(env) => CleanImport(w.relay, w.slots, env);
    case _ =>
  }

  ghost function RelayImports(actions: seq<Action>): nat {
    if actions == [] then 0 else Gain(actions[0]) + RelayImports(actions[1..])
  }

  /** Over every clean run, whatever the user's mutations write: the relay chain grows by exactly one
      block for each relay import, however often its tip is rewritten, and every enacted candidate has a
      relay-parent number one above the number it was backed in. */
  lemma {:induction false} CleanRunStaysCurrent(w: World, actions: seq<Action>)
    requires Wellformed(w) && AllApply(w, actions) && Current(w.relay) && CleanRun(w, actions)
    ensures Current(Run(w, actions).relay)
    ensures |Run(w, actions).relay.chain| == |w.relay.chain| + RelayImports(actions)
    decreases |actions|
  {
    if actions != [] {
      CleanStep(w, actions[0]);
      CleanRunStaysCurrent(Step(w, actions[0]).1, actions[1..]);
    }
  }

  /** Where those mutations leave the list of parachains and the presence of heads alone, the list stays
      strictly sorted and covers every registered collator. */
  lemma {:induction false} CleanRunStaysCovering(w: World, actions: seq<Action>)
    requires Wellformed(w) && AllApply(w, actions) && Current(w.relay) && Covers(w.relay)
    requires CleanRun(w, actions) && RespectfulRun(w, actions)
    ensures Covers(Run(w, actions).relay)
    decreases |actions|
  {
    if actions != [] {
      CleanStep(w, actions[0]);
      CoveringStep(w, actions[0]);
      CleanRunStaysCovering(Step(w, actions[0]).1, actions[1..]);
    }
  }

  // ---- What covering rules out ----

  ghost predicate Onboarded(status: Status) {
    status != ParachainNotOnboarded && status != EnactmentFailed(NotOnboarded)
  }

  lemma EnactFindsOne(r: Relay, slots: seq<Slot>, c: Collation, parent: RelayHeader, env: EnactEnv)
    requires |r.chain| > 0 && Wired(r.registered, |slots|) && Covers(r)
    requires FindEntry(r.registered, c.id).Some?
    ensures Onboarded(EnactOne(r, slots, c, parent, env).0)
    ensures EnactOne(r, slots, c, parent, env).0.Ok? ==> Covers(EnactOne(r, slots, c, parent, env).1)
  {
    if EnactOne(r, slots, c, parent, env).0.Ok? {
      EnactOneOk(r, slots, c, parent, env);
    } else {
      assert c.id in Tip(r.chain).root.parachains;
    }
  }

  lemma {:induction false} EnactFindsEveryone(r: Relay, slots: seq<Slot>, todo: seq<Collation>, k: nat,
                                              parent: RelayHeader, env: ImportEnv)
    requires |r.chain| > 0 && Wired(r.registered, |slots|) && k <= |todo| && Covers(r)
    requires forall c :: c in todo ==> FindEntry(r.registered, c.id).Some?
    ensures Onboarded(EnactFrom(r, slots, todo, k, parent, env).0)
    decreases |todo| - k
  {
    hide EnactOne;
    if k < |todo| {
      assert todo[k] in todo;
      EnactFindsOne(r, slots, todo[k], parent, EnactEnvAt(env, k));
      var one := EnactOne(r, slots, todo[k], parent, EnactEnvAt(env, k));
      if one.0.Ok? {
        EnactFindsEveryone(one.1, one.2, todo, k + 1, parent, env);
      }
    }
  }

  /** From any state a clean and respectful run reaches, an import may fail for many reasons but never because a
      pending parachain is not onboarded. */
  lemma NeverNotOnboarded(r: Relay, slots: seq<Slot>, env: ImportEnv)
    requires Wired(r.registered, |slots|) && Current(r) && Covers(r)
    ensures Onboarded(ImportRelay(r, slots, env).0)
  {
    if r.next.Some? {
      var header := r.next.value;
      ImportedCovers(r);
      var imported := r.(next := None, chain := ImportBest(r.chain, header, env.answer),
          imports := r.imports + [header]);
      EnactFindsEveryone(imported, slots, r.collations, 0, Tip(imported.chain), env);
      var (status, enacted, slots') := ForceEnact(imported, slots, env);
      if status.Ok? {
        CollectNeverMissing(enacted, slots', 0, header, env);
      }
    }
  }

  lemma {:induction false} CollectNeverMissing(r: Relay, slots: seq<Slot>, j: nat, generationParent: RelayHeader,
                                               env: ImportEnv)
    requires |r.chain| > 0 && Wired(r.registered, |slots|) && j <= |r.registered|
    ensures Onboarded(CollectFrom(r, slots, j, generationParent, env).0)
    decreases |r.registered| - j
  {
    if j < |r.registered| {
      var one := CollectOne(r, slots, r.registered[j], generationParent, CollectEnvAt(env, j));
      if one.0.Ok? {
        CollectNeverMissing(one.1, slots, j + 1, generationParent, env);
      }
    }
  }

  lemma EnteredCores(todo: seq<Collation>, parachains: seq<Id>, parent: RelayHeader, e: Enactment, f: Enactment)
    requires StrictlySorted(parachains)
    requires Entered(e, parachains, parent, todo) && Entered(f, parachains, parent, todo)
    ensures e.candidate.core == |Below(parachains, e.candidate.id)|
    ensures e.candidate.core == f.candidate.core <==> e.candidate.id == f.candidate.id
  {
    PositionIsRank(parachains, e.candidate.id);
  }

  /** Collecting records nothing. */
  lemma ImportRecordsEnacted(r: Relay, slots: seq<Slot>, env: ImportEnv)
    requires |r.chain| > 0 && Wired(r.registered, |slots|) && r.next.Some? && !env.answer.ImportFailed?
    ensures var header := r.next.value;
            var imported := r.(next := None, chain := ImportBest(r.chain, header, env.answer),
                               imports := r.imports + [header]);
            ImportRelay(r, slots, env).1.enacted == ForceEnact(imported, slots, env).1.enacted
  {
  }

  /** Any relay import, finished or not and on any answer, from a state a clean and respectful run reaches:
      the core of every candidate it records is the rank of its parachain in the stored list, so two of them
      share a core exactly when they are the same parachain's. */
  lemma CoresAreRanks(r: Relay, slots: seq<Slot>, env: ImportEnv)
    requires Wired(r.registered, |slots|) && Current(r) && Covers(r)
    ensures var after, list := ImportRelay(r, slots, env).1, Tip(r.chain).root.parachains; var from := |r.enacted|;
            && r.enacted <= after.enacted
            && (forall n :: from <= n < |after.enacted| ==>
                  after.enacted[n].candidate.core == |Below(list, after.enacted[n].candidate.id)|)
            && (forall m, n :: from <= m < |after.enacted| && from <= n < |after.enacted| ==>
                  (after.enacted[m].candidate.core == after.enacted[n].candidate.core
                   <==> after.enacted[m].candidate.id == after.enacted[n].candidate.id))
  {
    hide EnactFrom, CollectFrom, Entered, Below;
    if r.next.Some? && !env.answer.ImportFailed? {
      var header, list := r.next.value, Tip(r.chain).root.parachains;
      var imported := r.(next := None, chain := ImportBest(r.chain, header, env.answer),
          imports := r.imports + [header]);
      var parent := Tip(imported.chain);
      assert parent.root.parachains == list;
      EnactFromEntries(imported, slots, r.collations, 0, parent, env);
      ImportRecordsEnacted(r, slots, env);
      var enacted := ImportRelay(r, slots, env).1.enacted;
      forall m, n | |r.enacted| <= m < |enacted| && |r.enacted| <= n < |enacted|
        ensures enacted[m].candidate.core == |Below(list, enacted[m].candidate.id)|
        ensures enacted[m].candidate.core == enacted[n].candidate.core
            <==> enacted[m].candidate.id == enacted[n].candidate.id
      {
        EnteredCores(r.collations, list, parent, enacted[m], enacted[n]);
      }
    }
  }
}
