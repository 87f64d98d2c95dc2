/** The relay-chain builder: `next`, `imports`, the registered collators and the pending collations over
    a core builder whose tip enactment rewrites.
 */
module RelayBuilder {
  import opened Ledger
  import opened Externalities
  import opened ParasStorage
  import opened Protocol
  import opened Database
  import opened Builders

  datatype Registration = Registration(id: Id, collator: FudgeCollator)

  ghost function Entries(parachains: seq<Registration>): (entries: seq<Entry>)
    ensures |entries| == |parachains|
    ensures forall j :: 0 <= j < |parachains| ==>
              entries[j] == Entry(parachains[j].id, parachains[j].collator.storage.index)
  {
    seq(|parachains|, j requires 0 <= j < |parachains| => Entry(parachains[j].id, parachains[j].collator.storage.index))
  }

  lemma EntriesAppend(parachains: seq<Registration>, last: Registration)
    ensures Entries(parachains + [last]) == Entries(parachains) + [Entry(last.id, last.collator.storage.index)]
  {
  }

  /** Every registered collator works on one of the cells. */
  ghost predicate Connected(parachains: seq<Registration>, cells: seq<BlockStorage>) {
    Numbered(cells) &&
    forall j :: 0 <= j < |parachains| ==>
      parachains[j].collator.storage.index < |cells|
      && cells[parachains[j].collator.storage.index] == parachains[j].collator.storage
  }

  lemma SlotChanged(before: seq<Slot>, after: seq<Slot>, k: nat)
    requires |before| == |after| && k < |before|
    requires forall i :: 0 <= i < |before| && i != k ==> after[i] == before[i]
    ensures after == before[k := after[k]]
  {
  }

  /** The code is one of the storage items outside the paras pallet. */
  ghost predicate CodeOutside(version: RelayStorage -> Option<nat>, runtime: Kv -> bool) {
    forall s :: version(s).Some? <==> runtime(s.other)
  }

  lemma StillThere<S>(before: Records<S>, after: Records<S>, hash: Hash<S>, archive: bool)
    requires archive ==> StatesKept(before, after) && StateAt(before, hash).Some?
    ensures archive ==> StateAt(after, hash).Some?
  {
  }

  class RelaychainBuilder {
    const builder: Builder<RelayStorage>
    /** What the storage items outside the paras pallet must hold for there to be usable code. */
    const runtime: Kv -> bool
    var next: Option<RelayHeader>
    /** The body of the block waiting. */
    var nextBody: Body
    var imports: seq<RelayHeader>
    var parachains: seq<Registration>
    var collations: seq<Collation>
    ghost var enacted: seq<Enactment>

    ghost predicate Valid()
      reads this, builder
    {
      builder.Valid() && builder.OneChain() && CodeOutside(builder.version, runtime)
    }

    ghost function View(): Relay
      reads this, builder
    {
      Relay(Node(builder.archive, runtime), builder.chain, next, imports, Entries(parachains), collations, enacted)
    }

    constructor (builder: Builder<RelayStorage>, runtime: Kv -> bool)
      requires builder.Valid() && builder.OneChain() && CodeOutside(builder.version, runtime)
      ensures Valid() && this.builder == builder && this.runtime == runtime && parachains == []
      ensures View() == Relay(Node(builder.archive, runtime), builder.chain, None, [], [], [], [])
    {
      this.builder, this.runtime := builder, runtime;
      next, nextBody, imports, parachains, collations, enacted := None, [], [], [], [], [];
    }

    lemma CodedIsVersioned()
      requires Valid()
      ensures |builder.chain| > 0 && (builder.version(builder.VersionState()).Some? <==> Coded(View()))
    {
    }

    method WithMutState<R>(exec: (RelayStorage, Records<RelayStorage>) -> Executed<RelayStorage, R>, fault: Fault)
      returns (status: Status, result: Option<R>)
      requires Valid()
      modifies builder
      ensures Valid() && (builder.archive ==> StatesKept(old(builder.records), builder.records))
      ensures var state := Tip(old(View()).chain).root; var done := exec(state, old(builder.Visible()));
              && (status, View()) == MutateRelay(old(View()), Landing(done, state), Ending(done.Finished?, fault))
              && (status.Ok? ==> done.Finished? && result == Some(done.result))
      ensures status.Ok? ==> builder.Bodies() == old(builder.Bodies())
      ensures |builder.chain| <= |old(builder.chain)| && builder.Bodies() == old(builder.Bodies())[..|builder.chain|]
    {
      if next.Some? {
        StatesKeptAtFirst(builder.records);
        return Panicked, None;
      }
      hide Entries, CodeOutside, Coded, RewriteTip, DropTip, CommitError, StatesKept, Indexed, Filed, OnlyCanonical,
          WithoutTip, BodiesOf, Roots;
      ghost var done := exec(Tip(builder.chain).root, builder.Visible());
      CodedIsVersioned();
      CommitEnds(fault, |builder.chain| == 1, builder.version(builder.VersionState()).Some?, done.Finished?);
      var committed := builder.WithMutState(exec, IoOf(fault));
      match committed {
        case Ok(value) => status, result := Status.Ok, Some(value);
        case Err(_) => status, result := CoreBuilderFailed, None;
      }
    }

    method UpdateParaHead(id: Id, head: HeadData, fault: Fault) returns (status: Status)
      requires Valid()
      modifies builder
      ensures Valid()
      ensures (status, View()) == Protocol.UpdateParaHead(old(View()), id, head, fault)
      ensures |builder.chain| <= |old(builder.chain)| && builder.Bodies() == old(builder.Bodies())[..|builder.chain|]
    {
      var exec: (RelayStorage, Records<RelayStorage>) -> Executed<RelayStorage, ()> :=
        (s: RelayStorage, _) => Finished(s.(heads := s.heads[id := head]), ());
      var done;
      status, done := WithMutState(exec, fault);
    }

    method OnboardPara(id: Id, head: HeadData, code: Code, hash: Code -> CodeHash, collator: FudgeCollator,
                       fault: Fault)
      returns (status: Status)
      requires Valid()
      modifies this, builder
      ensures Valid()
      ensures (status, View()) == Protocol.OnboardPara(old(View()), Entry(id, collator.storage.index), head, code, hash,
              fault)
      ensures parachains == if status.Ok? then old(parachains) + [Registration(id, collator)] else old(parachains)
      ensures |builder.chain| <= |old(builder.chain)| && builder.Bodies() == old(builder.Bodies())[..|builder.chain|]
    {
      hide Onboard, CodeOutside, Indexed, Filed, OnlyCanonical, StatesKept, BodiesOf, RewriteTip, DropTip;
      var exec: (RelayStorage, Records<RelayStorage>) -> Executed<RelayStorage, ()> :=
        (s: RelayStorage, _) => Finished(Onboard(s, id, head, code, hash), ());
      var done;
      status, done := WithMutState(exec, fault);
      if status.Ok? {
        EntriesAppend(parachains, Registration(id, collator));
        parachains := parachains + [Registration(id, collator)];
      }
    }

    method BuildBlock(other: Kv, digest: nat, body: Body, fails: bool) returns (status: Status)
      requires Valid()
      modifies this
      ensures Valid() && parachains == old(parachains)
      ensures (status, View()) == BuildRelay(old(View()), other, digest, fails)
      ensures nextBody == if status.Ok? then body else old(nextBody)
    {
      if next.Some? {
        return Panicked;
      }
      if fails {
        return CoreBuilderFailed;
      }
      var parent := builder.LatestHeader();
      var header := builder.BuildBlock(Execute(parent.root, parent.number + 1, other), digest);
      next, nextBody := Some(header), body;
      status := Status.Ok;
    }

    /** Collect from one collator, against the head the state of the latest block holds. */
    method CollectOne(para: Registration, generationParent: RelayHeader, e: CollectEnv, ghost cells: seq<BlockStorage>)
      returns (status: Status)
      requires Valid() && Connected(parachains, cells) && para in parachains
      modifies this`collations
      ensures Valid()
      ensures (status, View())
              == Protocol.CollectOne(old(View()), Slots(cells), Entry(para.id, para.collator.storage.index),
                  generationParent, e)
    {
      var best := builder.LatestHeader();
      if e.readFails {
        return ValidationDataRetrieval;
      }
      if para.id !in best.root.heads {
        return ValidationDataNotFound;
      }
      var collated := para.collator.CreateCollation(best.root.heads[para.id], e.infoFails);
      if collated.Failed? {
        return CollationFailed;
      }
      if collated.Made? && !HasCollation(collations, para.id) {
        collations := collations + [Collation(para.id, collated.block, generationParent)];
      }
      status := Status.Ok;
    }

    /** Collect from every registered collator; the first that fails ends the call. */
    method CollectCollations(generationParent: RelayHeader, env: ImportEnv, ghost cells: seq<BlockStorage>)
      returns (status: Status)
      requires Valid() && Connected(parachains, cells)
      modifies this`collations
      ensures Valid()
      ensures (status, View()) == CollectFrom(old(View()), Slots(cells), 0, generationParent, env)
    {
      hide Protocol.CollectOne;
      ghost var slots, start := Slots(cells), View();
      var j := 0;
      while j < |parachains|
        invariant Valid() && j <= |parachains|
        invariant CollectFrom(start, slots, 0, generationParent, env)
                  == CollectFrom(View(), slots, j, generationParent, env)
      {
        status := CollectOne(parachains[j], generationParent, CollectEnvAt(env, j), cells);
        if !status.Ok? {
          return;
        }
        j := j + 1;
      }
      status := Status.Ok;
    }

    method FindCollator(id: Id) returns (position: Option<nat>)
      ensures position == FindEntry(Entries(parachains), id)
    {
      ghost var entries := Entries(parachains);
      var j := 0;
      while j < |parachains|
        invariant j <= |parachains|
        invariant FindEntryFrom(entries, id, 0) == FindEntryFrom(entries, id, j)
      {
        if parachains[j].id == id {
          return Some(j);
        }
        j := j + 1;
      }
      position := None;
    }

    /** The block was the tip when it was captured; since then only the tip has been rewritten. */
    ghost predicate Captured(parent: RelayHeader)
      reads this, builder
    {
      && parent.number == |builder.chain| - 1
      && (builder.archive ==> StateAt(builder.records, HashOf(parent)).Some?)
    }

    lemma CapturesTip()
      requires Valid()
      ensures |builder.chain| > 0 && Captured(Tip(builder.chain))
    {
      builder.BestIsTip();
    }

    /** What the database serves at a captured block, outside a commit and inside one. */
    lemma ServesCaptured(parent: RelayHeader)
      requires Valid() && Captured(parent)
      ensures StateAt(builder.records, HashOf(parent)) == Readable(View(), parent)
      ensures StateAt(builder.Visible(), HashOf(parent)) == ReadableInside(View(), parent)
    {
      hide Entries;
      var chain, records, hash := builder.chain, builder.records, HashOf(parent);
      assert Tip(chain) == chain[|chain| - 1];
      if hash in records {
        assert WellFiled(hash, records[hash]);
      }
      if StateAt(records, hash).Some? && !builder.archive {
        var i :| 0 <= i < |chain| && chain[i] == parent;
        assert i == parent.number;
      }
    }

    /** Write one collation into the relay state as enacted; what the closure wrote stays even when it
        ends in an error of its own.  Both reads are made at the captured block: the validation data
        before the commit, the code hash by the closure, in whatever the database still holds then. */
    method EnactCommit(c: Collation, parent: RelayHeader, e: EnactEnv)
      returns (status: Status, candidate: Option<Candidate>)
      requires Valid() && Captured(parent)
      modifies builder
      ensures Valid() && (status.Ok? ==> Captured(parent))
      ensures (status, View(), candidate) == Protocol.EnactCommit(old(View()), c, parent, e)
      ensures |builder.chain| <= |old(builder.chain)| && builder.Bodies() == old(builder.Bodies())[..|builder.chain|]
    {
      hide Entries, CodeOutside, RewriteTip, DropTip, StatesKept, Indexed, Filed, OnlyCanonical, WithoutTip;
      ServesCaptured(parent);
      var data := builder.DryRun(Some(AtHash(HashOf(parent))), (s: RelayStorage) => s);
      if e.readFails || data.Err? {
        return ValidationDataRetrieval, None;
      }
      if c.id !in data.value.heads {
        return ValidationDataNotFound, None;
      }
      var exec: (RelayStorage, Records<RelayStorage>) -> Executed<RelayStorage,
          (Option<EnactError>, Option<Candidate>)> :=
        (s: RelayStorage, db: Records<RelayStorage>) =>
          var (error, post, made) := EnactClosure(s, StateAt(db, HashOf(parent)), c.id, c.block.header,
                                                  parent.number, c.generationParent.number);
          Finished(post, (error, made));
      ghost var before := builder.records;
      var result;
      status, result := WithMutState(exec, e.fault);
      candidate := None;
      if status.Ok? {
        StillThere(before, builder.records, HashOf(parent), builder.archive);
        candidate := result.value.1;
        if result.value.0.Some? {
          status := EnactmentFailed(result.value.0.value);
        }
      }
    }

    method Judge(c: Collation, candidate: Candidate, ghost cells: seq<BlockStorage>) returns (status: Status)
      requires Valid() && Connected(parachains, cells)
      modifies this`enacted, cells
      ensures Valid()
      ensures (status, View(), Slots(cells)) == JudgeEnacted(old(View()), old(Slots(cells)), c, candidate)
    {
      var index := FindCollator(c.id);
      if index.None? {
        return ParachainNotOnboarded;
      }
      var collator := parachains[index.value].collator;
      enacted := enacted + [Enactment(candidate, c.block, collator.storage.nextBlock)];
      ghost var before := Slots(cells);
      status := collator.Approve();
      SlotChanged(before, Slots(cells), collator.storage.index);
    }

    method EnactOne(c: Collation, parent: RelayHeader, e: EnactEnv, ghost cells: seq<BlockStorage>)
      returns (status: Status)
      requires Valid() && Captured(parent) && Connected(parachains, cells)
      modifies this`enacted, builder, cells
      ensures Valid() && (status.Ok? ==> Captured(parent))
      ensures (status, View(), Slots(cells)) == Protocol.EnactOne(old(View()), old(Slots(cells)), c, parent, e)
      ensures |builder.chain| <= |old(builder.chain)| && builder.Bodies() == old(builder.Bodies())[..|builder.chain|]
    {
      var candidate;
      status, candidate := EnactCommit(c, parent, e);
      if status.Ok? && candidate.Some? {
        status := Judge(c, candidate.value, cells);
      }
    }

    /** Enact what is pending, approving each block as its head is written.  An error leaves the loop
        with the list of collations as it was. */
    method ForceEnactCollations(env: ImportEnv, ghost cells: seq<BlockStorage>) returns (status: Status)
      requires Valid() && Connected(parachains, cells)
      modifies this`enacted, this`collations, builder, cells
      ensures Valid()
      ensures (status, View(), Slots(cells)) == ForceEnact(old(View()), old(Slots(cells)), env)
      ensures |builder.chain| <= |old(builder.chain)| && builder.Bodies() == old(builder.Bodies())[..|builder.chain|]
    {
      hide Protocol.EnactOne, Captured, Indexed, Filed, OnlyCanonical, CodeOutside;
      var parent := builder.LatestHeader();
      CapturesTip();
      var todo := collations;
      ghost var start, slots := View(), Slots(cells);
      var k := 0;
      while k < |todo|
        invariant Valid() && Captured(parent) && k <= |todo|
        invariant |builder.chain| <= |old(builder.chain)|
        invariant builder.Bodies() == old(builder.Bodies())[..|builder.chain|]
        invariant EnactFrom(start, slots, todo, 0, parent, env) == EnactFrom(View(), Slots(cells), todo, k, parent, env)
      {
        status := EnactOne(todo[k], parent, EnactEnvAt(env, k), cells);
        if !status.Ok? {
          return;
        }
        k := k + 1;
      }
      ghost var done, settled := View(), Slots(cells);
      collations := [];
      assert View() == done.(collations := []) && Slots(cells) == settled;
      status := Status.Ok;
    }

    method EnactAndCollect(header: RelayHeader, env: ImportEnv, ghost cells: seq<BlockStorage>) returns (status: Status)
      requires Valid() && Connected(parachains, cells)
      modifies this`enacted, this`collations, builder, cells
      ensures Valid()
      ensures var (enactment, r, slots) := ForceEnact(old(View()), old(Slots(cells)), env);
              && Slots(cells) == slots
              && (status, View()) == if enactment.Ok? then CollectFrom(r, slots, 0, header, env) else (enactment, r)
      ensures |builder.chain| <= |old(builder.chain)| && builder.Bodies() == old(builder.Bodies())[..|builder.chain|]
    {
      hide CollectFrom, ForceEnact, Entries, Connected, CodeOutside, Indexed, Filed, OnlyCanonical, StatesKept;
      status := ForceEnactCollations(env, cells);
      if status.Ok? {
        ghost var slots := Slots(cells);
        status := CollectCollations(header, env, cells);
        assert Slots(cells) == slots;
      }
    }

    /** Take the built block, import it, enact what was pending, collect what is pending now. */
    method ImportBlock(env: ImportEnv, ghost cells: seq<BlockStorage>) returns (status: Status)
      requires Valid() && Connected(parachains, cells)
      modifies this, builder, cells
      ensures Valid() && parachains == old(parachains)
      ensures (status, View(), Slots(cells)) == ImportRelay(old(View()), old(Slots(cells)), env)
      ensures |old(builder.chain)| > 0
      ensures var appends := old(next).Some? && env.answer.Imported?
              && IsChildOfTip(old(next).value, old(builder.chain));
              var bodies := old(builder.Bodies()) + if appends then [old(nextBody)] else [];
              |builder.chain| <= |bodies| && builder.Bodies() == bodies[..|builder.chain|]
    {
      hide CollectFrom, ForceEnact, Entries, Connected, CodeOutside, Indexed, Filed, OnlyCanonical, StatesKept;
      ghost var start, slots := View(), Slots(cells);
      var taken := next;
      next := None;
      if taken.None? {
        return Status.NextBlockNotFound;
      }
      var imported := builder.ImportBest(taken.value, nextBody, env.answer);
      if imported.Err? {
        return CoreBuilderFailed;
      }
      imports := imports + [taken.value];
      ghost var ready := View();
      assert ready == start.(next := None, chain := ImportBest(start.chain, taken.value, env.answer),
                             imports := start.imports + [taken.value]);
      assert Slots(cells) == slots;
      status := EnactAndCollect(taken.value, env, cells);
    }
  }
}
