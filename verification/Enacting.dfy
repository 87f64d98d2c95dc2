/** What one relay import does to the pending collations: which block is approved for each enacted head,
    which candidate is recorded, which collations are pending afterwards.
 */
module Enacting {
  import opened Ledger
  import opened ParasStorage
  import opened Protocol

  /** The slot of the collator that `position` finds for an id. */
  ghost function SlotFor(registered: seq<Entry>, id: Id): (k: Option<nat>)
  {
    var j := FindEntry(registered, id);
    if j.None? then None else Some(registered[j.value].slot)
  }

  ghost predicate DistinctIds(registered: seq<Entry>) {
    forall i, j :: 0 <= i < j < |registered| ==> registered[i].id != registered[j].id
  }

  ghost predicate DistinctSlots(registered: seq<Entry>) {
    forall i, j :: 0 <= i < j < |registered| ==> registered[i].slot != registered[j].slot
  }

  lemma SlotForEntry(registered: seq<Entry>, j: nat)
    requires DistinctIds(registered) && j < |registered|
    ensures SlotFor(registered, registered[j].id) == Some(registered[j].slot)
  {
    var found := FindEntry(registered, registered[j].id).value;
    assert found == j;
  }

  // ---- One enactment ----

  ghost function CandidateFor(tip: RelayStorage, c: Collation, parent: RelayHeader): Candidate
    requires c.id in tip.parachains
  {
    Candidate(Position(tip.parachains, c.id).value, c.id, c.block.header, parent.number, c.generationParent.number)
  }

  ghost function AfterEnact(tip: RelayStorage, c: Collation): RelayStorage {
    tip.(heads := tip.heads[c.id := c.block.header],
         pendingCommitments := tip.pendingCommitments - {c.id},
         pendingAvailability := tip.pendingAvailability - {c.id})
  }

  lemma EnactCommitOk(r: Relay, c: Collation, parent: RelayHeader, env: EnactEnv)
    requires |r.chain| > 0
    requires EnactCommit(r, c, parent, env).0.Ok?
    ensures c.id in Tip(r.chain).root.parachains
    ensures EnactCommit(r, c, parent, env).1 == r.(chain := RewriteTip(r.chain, AfterEnact(Tip(r.chain).root, c)))
    ensures EnactCommit(r, c, parent, env).2 == Some(CandidateFor(Tip(r.chain).root, c, parent))
  {
    var tip := Tip(r.chain).root;
    assert tip.pendingCommitments[c.id := c.block.header] - {c.id} == tip.pendingCommitments - {c.id};
    var candidate := CandidateFor(tip, c, parent);
    assert tip.pendingAvailability[c.id := candidate] - {c.id} == tip.pendingAvailability - {c.id};
  }

  /** A successful enactment makes the collated header the parachain's head, assigns the core by the
      parachain's place in the list, and moves whatever block the slot holds at that moment. */
  lemma EnactOneOk(r: Relay, slots: seq<Slot>, c: Collation, parent: RelayHeader, env: EnactEnv)
    requires |r.chain| > 0 && Wired(r.registered, |slots|)
    requires EnactOne(r, slots, c, parent, env).0.Ok?
    ensures c.id in Tip(r.chain).root.parachains && SlotFor(r.registered, c.id).Some?
    ensures var k := SlotFor(r.registered, c.id).value;
            && slots[k].nextBlock.Some?
            && EnactOne(r, slots, c, parent, env).2 == slots[k := Approve(slots[k]).1]
            && EnactOne(r, slots, c, parent, env).1 ==
               r.(chain := RewriteTip(r.chain, AfterEnact(Tip(r.chain).root, c)),
                  enacted := r.enacted + [Enactment(CandidateFor(Tip(r.chain).root, c, parent), c.block,
                      slots[k].nextBlock)])
  {
    EnactCommitOk(r, c, parent, env);
  }

  /** What an enactment's commit can end in, each with its cause, and what is left where the closure did
      not run. */
  lemma EnactCommitEnds(r: Relay, c: Collation, parent: RelayHeader, env: EnactEnv)
    requires |r.chain| > 0
    ensures var (status, after, candidate) := EnactCommit(r, c, parent, env);
            var served := !env.readFails && Readable(r, parent).Some?; var held := served && c.id in parent.root.heads;
            var commits := env.fault.NoFault? && Coded(r);
            && (status == ValidationDataRetrieval <==> !served)
            && (status == ValidationDataNotFound <==> served && !held)
            && (status == Panicked <==> held && r.next.Some?)
            && (status == CoreBuilderFailed <==> held && r.next.None? && !commits)
            && (status.EnactmentFailed? || status.Ok? <==> held && r.next.None? && commits)
            && (!held || r.next.Some? ==> after == r)
            && (status == CoreBuilderFailed ==>
                  after == r.(chain := if env.fault.BeforeRevert? then r.chain else DropTip(r.chain)))
            && (candidate.Some? <==> status.Ok?)
  {
  }

  /** What the judge's part can end in, and what it leaves. */
  lemma JudgeEnds(r: Relay, slots: seq<Slot>, c: Collation, candidate: Candidate)
    requires Wired(r.registered, |slots|)
    ensures var (status, after, slots') := JudgeEnacted(r, slots, c, candidate); var k := SlotFor(r.registered, c.id);
            && (status == ParachainNotOnboarded <==> k.None?)
            && (status == JudgeFailed <==> k.Some? && slots[k.value].nextBlock.None?)
            && (status.Ok? <==> k.Some? && slots[k.value].nextBlock.Some?)
            && (!status.Ok? ==> slots' == slots)
            && after == r.(enacted := r.enacted
                  + if k.None? then [] else [Enactment(candidate, c.block, slots[k.value].nextBlock)])
  {
  }

  /** An enactment whose closure ends in an error: which error, and that nothing is left of it but the
      commitments it injected; no cell is approved and nothing is recorded. */
  lemma EnactOneStops(r: Relay, slots: seq<Slot>, c: Collation, parent: RelayHeader, env: EnactEnv)
    requires |r.chain| > 0 && Wired(r.registered, |slots|)
    requires EnactOne(r, slots, c, parent, env).0.EnactmentFailed?
    ensures var (status, after, slots') := EnactOne(r, slots, c, parent, env); var tip := Tip(r.chain).root;
            && slots' == slots
            && after == r.(chain := RewriteTip(r.chain,
                                      tip.(pendingCommitments := tip.pendingCommitments[c.id := c.block.header])))
            && (status.error.CodeHashRetrieval? <==> ReadableInside(r, parent).None?)
            && (status.error.CodeHashNotFound?
                <==> ReadableInside(r, parent).Some? && c.id !in parent.root.codes.current)
            && (status.error.NotOnboarded? ==> c.id !in tip.parachains)
  {
    EnactClosureEnds(Tip(r.chain).root, ReadableInside(r, parent), c.id, c.block.header, parent.number,
        c.generationParent.number);
  }

  // ---- The loop ----

  ghost predicate DistinctTargets(registered: seq<Entry>, todo: seq<Collation>) {
    forall m, n :: 0 <= m < n < |todo| ==>
      todo[m].id != todo[n].id && SlotFor(registered, todo[m].id) != SlotFor(registered, todo[n].id)
  }

  /** Enactment `m` of a finished loop, in terms of the state before it. */
  ghost predicate EnactedAt(r: Relay, slots: seq<Slot>, c: Collation, parent: RelayHeader, e: Enactment)
    requires |r.chain| > 0
    requires Wired(r.registered, |slots|)
  {
    var k := SlotFor(r.registered, c.id);
    && c.id in Tip(r.chain).root.parachains && k.Some?
    && slots[k.value].nextBlock.Some?
    && e == Enactment(CandidateFor(Tip(r.chain).root, c, parent), c.block, slots[k.value].nextBlock)
  }

  ghost predicate EnactedAll(r: Relay, slots: seq<Slot>, todo: seq<Collation>, k: nat, parent: RelayHeader,
                             added: seq<Enactment>)
    requires |r.chain| > 0 && Wired(r.registered, |slots|) && k <= |todo|
    decreases |todo| - k
  {
    if k == |todo| then added == []
    else
      && added != [] && EnactedAt(r, slots, todo[k], parent, added[0])
      && EnactedAll(r, slots, todo, k + 1, parent, added[1..])
  }

  /** Enactments of the other collations read the same before and after the first one. */
  lemma {:induction false} EnactedAcross(r: Relay, slots: seq<Slot>, first: nat, todo: seq<Collation>, k: nat,
                                         parent: RelayHeader,
                                         r1: Relay, slots1: seq<Slot>, added: seq<Enactment>)
    requires |r.chain| > 0 && Wired(r.registered, |slots|) && first < k <= |todo| && DistinctTargets(r.registered, todo)
    requires todo[first].id in Tip(r.chain).root.parachains
    requires var s := SlotFor(r.registered, todo[first].id);
             s.Some? && slots1 == slots[s.value := Approve(slots[s.value]).1]
    requires r1.registered == r.registered && |r1.chain| > 0
             && Tip(r1.chain).root == AfterEnact(Tip(r.chain).root, todo[first])
    requires EnactedAll(r1, slots1, todo, k, parent, added)
    ensures EnactedAll(r, slots, todo, k, parent, added)
    decreases |todo| - k
  {
    if k < |todo| {
      assert SlotFor(r.registered, todo[first].id) != SlotFor(r.registered, todo[k].id);
      EnactedAcross(r, slots, first, todo, k + 1, parent, r1, slots1, added[1..]);
    }
  }

  lemma AppendAssociates<T>(front: seq<T>, x: T, rest: seq<T>)
    ensures (front + [x]) + rest == front + ([x] + rest)
    ensures ([x] + rest)[1..] == rest
  {
  }

  /** The history grows by one entry for each collation, in order. */
  lemma {:induction false} EnactFromLog(r: Relay, slots: seq<Slot>, todo: seq<Collation>, k: nat, parent: RelayHeader,
                                        env: ImportEnv)
    returns (added: seq<Enactment>)
    requires |r.chain| > 0 && Wired(r.registered, |slots|) && k <= |todo|
    requires DistinctTargets(r.registered, todo)
    requires EnactFrom(r, slots, todo, k, parent, env).0.Ok?
    ensures EnactFrom(r, slots, todo, k, parent, env).1.enacted == r.enacted + added
    ensures EnactedAll(r, slots, todo, k, parent, added)
    decreases |todo| - k
  {
    added := [];
    if k < |todo| {
      EnactOneOk(r, slots, todo[k], parent, EnactEnvAt(env, k));
      var (_, r1, slots1) := EnactOne(r, slots, todo[k], parent, EnactEnvAt(env, k));
      var first := r1.enacted[|r.enacted|];
      var rest := EnactFromLog(r1, slots1, todo, k + 1, parent, env);
      EnactedAcross(r, slots, k, todo, k + 1, parent, r1, slots1, rest);
      added := [first] + rest;
      AppendAssociates(r.enacted, first, rest);
    }
  }

  lemma {:induction false} EnactedAllAt(r: Relay, slots: seq<Slot>, todo: seq<Collation>, k: nat, parent: RelayHeader,
                                        added: seq<Enactment>)
    requires |r.chain| > 0 && Wired(r.registered, |slots|) && k <= |todo|
    requires EnactedAll(r, slots, todo, k, parent, added)
    ensures |added| == |todo| - k
    ensures forall m :: k <= m < |todo| ==> EnactedAt(r, slots, todo[m], parent, added[m - k])
    decreases |todo| - k
  {
    if k < |todo| {
      EnactedAllAt(r, slots, todo, k + 1, parent, added[1..]);
    }
  }

  /** Every collation's slot is approved once, every other slot is left alone. */
  lemma {:induction false} EnactFromSlots(r: Relay, slots: seq<Slot>, todo: seq<Collation>, k: nat, parent: RelayHeader,
                                          env: ImportEnv)
    requires |r.chain| > 0 && Wired(r.registered, |slots|) && k <= |todo|
    requires DistinctTargets(r.registered, todo)
    requires EnactFrom(r, slots, todo, k, parent, env).0.Ok?
    ensures var after := EnactFrom(r, slots, todo, k, parent, env).2;
            && (forall m :: k <= m < |todo| ==>
                  var s := SlotFor(r.registered, todo[m].id);
                  s.Some? && after[s.value] == Approve(slots[s.value]).1)
            && (forall s ::
                  0 <= s < |slots| && (forall m :: k <= m < |todo| ==> SlotFor(r.registered, todo[m].id) != Some(s))
                  ==> after[s] == slots[s])
    decreases |todo| - k
  {
    if k < |todo| {
      EnactOneOk(r, slots, todo[k], parent, EnactEnvAt(env, k));
      var (_, r1, slots1) := EnactOne(r, slots, todo[k], parent, EnactEnvAt(env, k));
      EnactFromSlots(r1, slots1, todo, k + 1, parent, env);
      forall m | k < m < |todo| ensures SlotFor(r.registered, todo[m].id) != SlotFor(r.registered, todo[k].id) {}
    }
  }

  /** The tip after the loop: same height, same list, same codes; exactly the collated parachains
      have a new head, which is the collated header. */
  lemma {:induction false} EnactFromTip(r: Relay, slots: seq<Slot>, todo: seq<Collation>, k: nat, parent: RelayHeader,
                                        env: ImportEnv)
    requires |r.chain| > 0 && Wired(r.registered, |slots|) && k <= |todo|
    requires DistinctTargets(r.registered, todo)
    requires EnactFrom(r, slots, todo, k, parent, env).0.Ok?
    ensures var before := Tip(r.chain); var after := EnactFrom(r, slots, todo, k, parent, env).1.chain;
            && |after| == |r.chain| && after[..|r.chain| - 1] == r.chain[..|r.chain| - 1]
            && Tip(after) == before.(root := Tip(after).root)
            && Tip(after).root.parachains == before.root.parachains && Tip(after).root.codes == before.root.codes
            && before.root.heads.Keys <= Tip(after).root.heads.Keys
            && (forall m :: k <= m < |todo| ==>
                  todo[m].id in Tip(after).root.heads && Tip(after).root.heads[todo[m].id] == todo[m].block.header)
            && (forall id :: id in before.root.heads && (forall m :: k <= m < |todo| ==> todo[m].id != id)
                  ==> Tip(after).root.heads[id] == before.root.heads[id])
    decreases |todo| - k
  {
    hide EnactOne;
    if k < |todo| {
      EnactOneOk(r, slots, todo[k], parent, EnactEnvAt(env, k));
      var (_, r1, slots1) := EnactOne(r, slots, todo[k], parent, EnactEnvAt(env, k));
      EnactFromTip(r1, slots1, todo, k + 1, parent, env);
      forall m | k < m < |todo| ensures todo[m].id != todo[k].id {}
    }
  }

  // ---- When the loop succeeds, and what it leaves when it does not ----

  /** What one enactment asks of the state it finds and of the environment. */
  ghost predicate Enactable(r: Relay, slots: seq<Slot>, c: Collation, parent: RelayHeader, env: EnactEnv)
    requires |r.chain| > 0 && Wired(r.registered, |slots|)
  {
    var k := SlotFor(r.registered, c.id);
    && !env.readFails && Ending(Coded(r), env.fault).NoFault? && r.next.None?
    && c.id in parent.root.heads && c.id in parent.root.codes.current && c.id in Tip(r.chain).root.parachains
    && k.Some? && slots[k.value].nextBlock.Some?
  }

  lemma EnactOneIff(r: Relay, slots: seq<Slot>, c: Collation, parent: RelayHeader, env: EnactEnv)
    requires |r.chain| > 0 && Wired(r.registered, |slots|)
    ensures EnactOne(r, slots, c, parent, env).0.Ok? <==>
            Enactable(r, slots, c, parent, env) && Readable(r, parent).Some? && ReadableInside(r, parent).Some?
  {
  }

  ghost predicate AllEnactable(r: Relay, slots: seq<Slot>, todo: seq<Collation>, k: nat, parent: RelayHeader,
                               env: ImportEnv)
    requires |r.chain| > 0 && Wired(r.registered, |slots|)
  {
    forall m :: k <= m < |todo| ==> Enactable(r, slots, todo[m], parent, EnactEnvAt(env, m))
  }

  /** An enactment takes nothing from any other parachain's. */
  lemma EnactableAcross(r: Relay, slots: seq<Slot>, first: Collation, r1: Relay, slots1: seq<Slot>, c: Collation,
                        parent: RelayHeader, env: EnactEnv)
    requires |r.chain| > 0 && Wired(r.registered, |slots|)
    requires SlotFor(r.registered, first.id) != SlotFor(r.registered, c.id)
    requires var s := SlotFor(r.registered, first.id); s.Some? && slots1 == slots[s.value := Approve(slots[s.value]).1]
    requires r1.registered == r.registered && r1.next == r.next && r1.node == r.node
    requires r1.chain == RewriteTip(r.chain, AfterEnact(Tip(r.chain).root, first))
    ensures Enactable(r1, slots1, c, parent, env) <==> Enactable(r, slots, c, parent, env)
  {
    assert VersionRoot(r1.chain).other == VersionRoot(r.chain).other;
  }

  lemma AllEnactableAcross(r: Relay, slots: seq<Slot>, todo: seq<Collation>, k: nat, parent: RelayHeader,
                           env: ImportEnv)
    requires |r.chain| > 0 && Wired(r.registered, |slots|) && k < |todo| && DistinctTargets(r.registered, todo)
    requires EnactOne(r, slots, todo[k], parent, EnactEnvAt(env, k)).0.Ok?
    ensures var (_, r1, slots1) := EnactOne(r, slots, todo[k], parent, EnactEnvAt(env, k));
            AllEnactable(r1, slots1, todo, k + 1, parent, env) <==> AllEnactable(r, slots, todo, k + 1, parent, env)
  {
    hide Enactable;
    EnactOneOk(r, slots, todo[k], parent, EnactEnvAt(env, k));
    var (_, r1, slots1) := EnactOne(r, slots, todo[k], parent, EnactEnvAt(env, k));
    forall m | k < m < |todo|
      ensures Enactable(r1, slots1, todo[m], parent, EnactEnvAt(env, m))
              <==> Enactable(r, slots, todo[m], parent, EnactEnvAt(env, m))
    {
      EnactableAcross(r, slots, todo[k], r1, slots1, todo[m], parent, EnactEnvAt(env, m));
    }
  }

  /** On an archive the loop over any number of collations succeeds exactly when each could be enacted on
      the state the loop starts from. */
  lemma {:induction false} ArchiveEnactsIff(r: Relay, slots: seq<Slot>, todo: seq<Collation>, k: nat,
                                            parent: RelayHeader,
                                            env: ImportEnv)
    requires |r.chain| > 0 && Wired(r.registered, |slots|) && k <= |todo| && DistinctTargets(r.registered, todo)
    requires r.node.archive
    ensures EnactFrom(r, slots, todo, k, parent, env).0.Ok? <==> AllEnactable(r, slots, todo, k, parent, env)
    decreases |todo| - k
  {
    hide EnactOne, Enactable;
    if k < |todo| {
      EnactOneIff(r, slots, todo[k], parent, EnactEnvAt(env, k));
      var one := EnactOne(r, slots, todo[k], parent, EnactEnvAt(env, k));
      if one.0.Ok? {
        AllEnactableAcross(r, slots, todo, k, parent, env);
        ArchiveEnactsIff(one.1, one.2, todo, k + 1, parent, env);
      }
    }
  }

  /** Enactments that leave the state as it is, the last one excepted. */
  ghost predicate Unchanging(state: RelayStorage, todo: seq<Collation>, k: nat) {
    forall m :: k <= m < |todo| - 1 ==> AfterEnact(state, todo[m]) == state
  }

  /** Any other backend serves a loop at genesis as long as the block captured before it is still there. */
  lemma {:induction false} GenesisEnactsIff(r: Relay, slots: seq<Slot>, todo: seq<Collation>, k: nat,
                                            parent: RelayHeader,
                                            env: ImportEnv)
    requires |r.chain| == 1 && Wired(r.registered, |slots|) && k <= |todo| && DistinctTargets(r.registered, todo)
    requires !r.node.archive && Tip(r.chain) == parent
    ensures EnactFrom(r, slots, todo, k, parent, env).0.Ok? <==>
            AllEnactable(r, slots, todo, k, parent, env) && Unchanging(parent.root, todo, k)
    decreases |todo| - k
  {
    hide EnactOne, Enactable;
    if k < |todo| {
      EnactOneIff(r, slots, todo[k], parent, EnactEnvAt(env, k));
      var one := EnactOne(r, slots, todo[k], parent, EnactEnvAt(env, k));
      if one.0.Ok? {
        AllEnactableAcross(r, slots, todo, k, parent, env);
        EnactOneOk(r, slots, todo[k], parent, EnactEnvAt(env, k));
        if AfterEnact(parent.root, todo[k]) == parent.root {
          GenesisEnactsIff(one.1, one.2, todo, k + 1, parent, env);
        } else if k + 1 < |todo| {
          assert !Unchanging(parent.root, todo, k);
          EnactOneIff(one.1, one.2, todo[k + 1], parent, EnactEnvAt(env, k + 1));
          assert Tip(one.1.chain).root != parent.root;
        }
      }
    }
  }

  /** Above genesis it serves none: the commit takes the captured block off before the closure asks for
      the code hash at it.  The candidate's commitments stay injected. */
  lemma DiscardingBackendEnactsNothing(r: Relay, slots: seq<Slot>, todo: seq<Collation>, k: nat, parent: RelayHeader,
                                       env: ImportEnv)
    requires |r.chain| > 1 && Wired(r.registered, |slots|) && k < |todo| && !r.node.archive
    ensures !EnactFrom(r, slots, todo, k, parent, env).0.Ok?
    ensures Tip(r.chain) == parent && Enactable(r, slots, todo[k], parent, EnactEnvAt(env, k)) ==>
              var state := parent.root;
              var injected :=
                  state.(pendingCommitments := state.pendingCommitments[todo[k].id := todo[k].block.header]);
              EnactFrom(r, slots, todo, k, parent, env)
              == (EnactmentFailed(CodeHashRetrieval), r.(chain := RewriteTip(r.chain, injected)), slots)
  {
    EnactOneIff(r, slots, todo[k], parent, EnactEnvAt(env, k));
  }

  /** The exact condition, for the loop as an import starts it. */
  lemma LoopSucceedsIff(r: Relay, slots: seq<Slot>, env: ImportEnv)
    requires |r.chain| > 0 && Wired(r.registered, |slots|) && DistinctTargets(r.registered, r.collations)
    ensures ForceEnact(r, slots, env).0.Ok? <==>
            && AllEnactable(r, slots, r.collations, 0, Tip(r.chain), env)
            && (|| r.node.archive
                || r.collations == []
                || (|r.chain| == 1 && Unchanging(Tip(r.chain).root, r.collations, 0)))
  {
    hide EnactFrom, Enactable;
    var todo, parent := r.collations, Tip(r.chain);
    if r.node.archive {
      ArchiveEnactsIff(r, slots, todo, 0, parent, env);
    } else if |r.chain| == 1 {
      GenesisEnactsIff(r, slots, todo, 0, parent, env);
    } else if todo != [] {
      DiscardingBackendEnactsNothing(r, slots, todo, 0, parent, env);
    } else {
      NothingToEnact(r, slots, parent, env);
    }
  }

  lemma NothingToEnact(r: Relay, slots: seq<Slot>, parent: RelayHeader, env: ImportEnv)
    requires |r.chain| > 0 && Wired(r.registered, |slots|)
    ensures EnactFrom(r, slots, [], 0, parent, env) == (Ok, r.(collations := []), slots)
  {
  }

  /** A loop that fails has enacted and approved everything before some collation, has failed at that one,
      has not looked at the others, and leaves all of them pending. */
  lemma {:induction false} EnactFromStops(r: Relay, slots: seq<Slot>, todo: seq<Collation>, k: nat, parent: RelayHeader,
                                          env: ImportEnv)
    returns (m: nat)
    requires |r.chain| > 0 && Wired(r.registered, |slots|) && k <= |todo|
    requires !EnactFrom(r, slots, todo, k, parent, env).0.Ok?
    ensures k <= m < |todo|
    ensures var (done, r1, slots1) := EnactFrom(r, slots, todo[..m], k, parent, env);
            && done.Ok?
            && var stop := EnactOne(r1.(collations := r.collations), slots1, todo[m], parent, EnactEnvAt(env, m));
               !stop.0.Ok? && EnactFrom(r, slots, todo, k, parent, env) == stop
    ensures EnactFrom(r, slots, todo, k, parent, env).1.collations == r.collations
    decreases |todo| - k
  {
    hide EnactOne;
    var one := EnactOne(r, slots, todo[k], parent, EnactEnvAt(env, k));
    if one.0.Ok? {
      m := EnactFromStops(one.1, one.2, todo, k + 1, parent, env);
      assert todo[..m][k] == todo[k];
    } else {
      m := k;
      assert r.(collations := []).(collations := r.collations) == r;
    }
  }

  // ---- Collecting ----

  /** The parachains among the first `n` registered ones whose slot holds a block, in onboarding order. */
  ghost function Pending(registered: seq<Entry>, slots: seq<Slot>, generationParent: RelayHeader,
                         n: nat): seq<Collation>
    requires n <= |registered| && Wired(registered, |slots|)
  {
    if n == 0 then []
    else
      var entry := registered[n - 1];
      var earlier := Pending(registered, slots, generationParent, n - 1);
      match slots[entry.slot].nextBlock
      case None => earlier
      case Some(block) => earlier + [Collation(entry.id, block, generationParent)]
  }

  lemma {:induction false} PendingIds(registered: seq<Entry>, slots: seq<Slot>, generationParent: RelayHeader, n: nat)
    requires n <= |registered| && Wired(registered, |slots|)
    ensures forall c :: c in Pending(registered, slots, generationParent, n) ==>
              exists j :: 0 <= j < n && c.id == registered[j].id
                          && slots[registered[j].slot].nextBlock == Some(c.block)
                               && c.generationParent == generationParent
  {
    if n > 0 {
      PendingIds(registered, slots, generationParent, n - 1);
    }
  }

  /** Collecting from an empty list yields exactly the pending blocks, one for each parachain whose
      slot holds one. */
  lemma {:induction false} CollectIsPending(r: Relay, slots: seq<Slot>, j: nat, generationParent: RelayHeader,
                                            env: ImportEnv)
    requires |r.chain| > 0 && Wired(r.registered, |slots|) && j <= |r.registered| && DistinctIds(r.registered)
    requires r.collations == Pending(r.registered, slots, generationParent, j)
    requires CollectFrom(r, slots, j, generationParent, env).0.Ok?
    ensures CollectFrom(r, slots, j, generationParent, env).1.collations
            == Pending(r.registered, slots, generationParent, |r.registered|)
    decreases |r.registered| - j
  {
    if j < |r.registered| {
      PendingIds(r.registered, slots, generationParent, j);
      assert !HasCollation(r.collations, r.registered[j].id);
      var (_, r1) := CollectOne(r, slots, r.registered[j], generationParent, CollectEnvAt(env, j));
      CollectIsPending(r1, slots, j + 1, generationParent, env);
    }
  }

  /** What collecting from one collator asks for. */
  ghost predicate Collectable(r: Relay, slots: seq<Slot>, k: nat, env: ImportEnv)
    requires |r.chain| > 0 && Wired(r.registered, |slots|) && k < |r.registered|
  {
    var entry, e, heads := r.registered[k], CollectEnvAt(env, k), Tip(r.chain).root.heads;
    var cell := slots[entry.slot].nextBlock;
    && !e.readFails && entry.id in heads
    && (cell.Some? ==> heads[entry.id].root == cell.value.proof && !e.infoFails)
  }

  /** What collecting from one collator can end in; a failure changes nothing. */
  lemma CollectOneEnds(r: Relay, slots: seq<Slot>, entry: Entry, generationParent: RelayHeader, e: CollectEnv)
    requires |r.chain| > 0 && entry.slot < |slots|
    ensures var (status, after) := CollectOne(r, slots, entry, generationParent, e);
            var heads, cell := Tip(r.chain).root.heads, slots[entry.slot].nextBlock;
            && (status == ValidationDataRetrieval <==> e.readFails)
            && (status == ValidationDataNotFound <==> !e.readFails && entry.id !in heads)
            && (status == CollationFailed <==>
                  !e.readFails && entry.id in heads && cell.Some?
                  && (heads[entry.id].root != cell.value.proof || e.infoFails))
            && (status.Ok? || status in {ValidationDataRetrieval, ValidationDataNotFound, CollationFailed})
            && (!status.Ok? || cell.None? || HasCollation(r.collations, entry.id) ==> after == r)
  {
  }

  lemma CollectOneIff(r: Relay, slots: seq<Slot>, j: nat, generationParent: RelayHeader, env: ImportEnv)
    requires |r.chain| > 0 && Wired(r.registered, |slots|) && j < |r.registered|
    ensures var (status, r1) := CollectOne(r, slots, r.registered[j], generationParent, CollectEnvAt(env, j));
            && (status.Ok? <==> Collectable(r, slots, j, env)) && r1 == r.(collations := r1.collations)
            && (!status.Ok? ==> r1 == r)
            && forall k :: 0 <= k < |r.registered|
                 ==> (Collectable(r1, slots, k, env) <==> Collectable(r, slots, k, env))
  {
  }

  /** The list grows by what the collator's cell holds. */
  lemma CollectOneAdds(r: Relay, slots: seq<Slot>, j: nat, generationParent: RelayHeader, env: ImportEnv)
    requires |r.chain| > 0 && Wired(r.registered, |slots|) && j < |r.registered| && DistinctIds(r.registered)
    requires r.collations == Pending(r.registered, slots, generationParent, j) && Collectable(r, slots, j, env)
    ensures CollectOne(r, slots, r.registered[j], generationParent, CollectEnvAt(env, j)).1.collations
            == Pending(r.registered, slots, generationParent, j + 1)
  {
    PendingIds(r.registered, slots, generationParent, j);
    assert !HasCollation(r.collations, r.registered[j].id);
  }

  lemma {:induction false} CollectsIffCollectable(r: Relay, slots: seq<Slot>, j: nat, generationParent: RelayHeader,
                                                  env: ImportEnv)
    requires |r.chain| > 0 && Wired(r.registered, |slots|) && j <= |r.registered|
    ensures CollectFrom(r, slots, j, generationParent, env).0.Ok?
            <==> forall k :: j <= k < |r.registered| ==> Collectable(r, slots, k, env)
    decreases |r.registered| - j
  {
    hide CollectOne, Collectable;
    if j < |r.registered| {
      var (status, r1) := CollectOne(r, slots, r.registered[j], generationParent, CollectEnvAt(env, j));
      CollectOneIff(r, slots, j, generationParent, env);
      if status.Ok? {
        CollectsIffCollectable(r1, slots, j + 1, generationParent, env);
      }
    }
  }

  /** A collecting loop that fails stops at one collator, keeps what those before it added and has not
      looked at those after it. */
  lemma {:induction false} CollectFromStops(r: Relay, slots: seq<Slot>, j: nat, generationParent: RelayHeader,
                                            env: ImportEnv)
    returns (m: nat)
    requires |r.chain| > 0 && Wired(r.registered, |slots|) && j <= |r.registered| && DistinctIds(r.registered)
    requires r.collations == Pending(r.registered, slots, generationParent, j)
    requires !CollectFrom(r, slots, j, generationParent, env).0.Ok?
    ensures j <= m < |r.registered|
    ensures var kept := r.(collations := Pending(r.registered, slots, generationParent, m));
            && CollectFrom(r, slots, j, generationParent, env).1 == kept
            && CollectFrom(r, slots, j, generationParent, env).0
               == CollectOne(kept, slots, r.registered[m], generationParent, CollectEnvAt(env, m)).0
    ensures forall k :: j <= k < m ==> Collectable(r, slots, k, env)
    ensures !Collectable(r, slots, m, env)
    decreases |r.registered| - j
  {
    hide CollectOne, Collectable, Pending, DistinctIds;
    var (status, r1) := CollectOne(r, slots, r.registered[j], generationParent, CollectEnvAt(env, j));
    CollectOneIff(r, slots, j, generationParent, env);
    if status.Ok? {
      CollectOneAdds(r, slots, j, generationParent, env);
      m := CollectFromStops(r1, slots, j + 1, generationParent, env);
    } else {
      m := j;
    }
  }

  /** After every successful relay import the pending collations are exactly the parachains whose
      slot holds a block, one each, in onboarding order, all generated on the block just imported. */
  lemma ImportLeavesPending(r: Relay, slots: seq<Slot>, env: ImportEnv)
    requires |r.chain| > 0 && Wired(r.registered, |slots|) && DistinctIds(r.registered)
    requires ImportRelay(r, slots, env).0.Ok?
    ensures r.next.Some?
    ensures var (_, after, slots') := ImportRelay(r, slots, env);
            after.collations == Pending(after.registered, slots', r.next.value, |after.registered|)
  {
    var imported := r.(next := None, chain := ImportBest(r.chain, r.next.value, env.answer),
        imports := r.imports + [r.next.value]);
    var (_, enacted, slots') := ForceEnact(imported, slots, env);
    CollectIsPending(enacted, slots', 0, r.next.value, env);
  }

  lemma {:induction false} PendingHasTargets(registered: seq<Entry>, slots: seq<Slot>, generationParent: RelayHeader,
                                             n: nat)
    requires n <= |registered| && Wired(registered, |slots|) && DistinctIds(registered) && DistinctSlots(registered)
    ensures DistinctTargets(registered, Pending(registered, slots, generationParent, n))
    ensures forall c :: c in Pending(registered, slots, generationParent, n) ==>
              var s := SlotFor(registered, c.id);
              s.Some? && s.value < |slots| && slots[s.value].nextBlock == Some(c.block)
  {
    if n > 0 {
      PendingHasTargets(registered, slots, generationParent, n - 1);
      PendingIds(registered, slots, generationParent, n - 1);
      SlotForEntry(registered, n - 1);
      var earlier := Pending(registered, slots, generationParent, n - 1);
      forall c | c in earlier
        ensures c.id != registered[n - 1].id && SlotFor(registered, c.id) != Some(registered[n - 1].slot)
      {
        var j :| 0 <= j < n - 1 && c.id == registered[j].id;
        SlotForEntry(registered, j);
      }
    }
  }
}
