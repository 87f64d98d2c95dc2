/** The relay-chain builder, the parachain builders and their collators as objects over the core builder,
    each method proved against the function in Protocol that describes it.
 */
module Builders {
  import opened Ledger
  import opened Externalities
  import opened ParasStorage
  import opened Protocol
  import opened Database

  /** How the backend makes a commit end. */
  function IoOf(fault: Fault): Io {
    match fault
    case NoFault => Healthy
    case BeforeRevert => AtBegin
    case AfterRevert => AtBlockData
  }

  lemma CommitEnds(fault: Fault, genesis: bool, usableCode: bool, finished: bool)
    ensures var ending := Ending(usableCode, Ending(finished, fault));
            && (CommitError(IoOf(fault), genesis, usableCode, finished).None? <==> ending.NoFault?)
            && (FailsBeforeRevert(IoOf(fault)) <==> ending.BeforeRevert?)
  {
  }

  /** The cell a parachain builder shares with its collators. */
  class BlockStorage {
    var nextBlock: Option<Built>
    var nextImport: Option<Built>
    ghost var approved: set<nat>
    /** Position among all cells of a system; identifies the cell in specifications. */
    ghost const index: nat

    ghost function View(): Slot
      reads this
    {
      Slot(nextBlock, nextImport, approved)
    }

    constructor (ghost index: nat)
      ensures View() == Slot(None, None, {}) && this.index == index
    {
      nextBlock, nextImport := None, None;
      approved := {};
      this.index := index;
    }
  }

  ghost predicate Numbered(cells: seq<BlockStorage>) {
    forall i :: 0 <= i < |cells| ==> cells[i].index == i
  }

  ghost function Slots(cells: seq<BlockStorage>): (slots: seq<Slot>)
    reads cells
    ensures |slots| == |cells|
    ensures forall i :: 0 <= i < |cells| ==> slots[i] == cells[i].View()
  {
    seq(|cells|, i requires 0 <= i < |cells| reads cells => cells[i].View())
  }

  class FudgeCollator {
    const storage: BlockStorage

    constructor (storage: BlockStorage)
      ensures this.storage == storage
    {
      this.storage := storage;
    }

    method CreateCollation(parentHead: HeadData, infoFails: bool) returns (collated: Collated)
      ensures collated == Protocol.CreateCollation(storage.View(), parentHead, infoFails)
    {
      var nextBlock := storage.nextBlock;
      if nextBlock.None? {
        return NoBlock;
      }
      if parentHead.root != nextBlock.value.proof || infoFails {
        return Failed;
      }
      collated := Made(nextBlock.value);
    }

    /** Whatever block the cell holds now moves on; with none there is nothing to approve. */
    method Approve() returns (status: Status)
      modifies storage
      ensures (status, storage.View()) == Protocol.Approve(old(storage.View()))
      ensures status.Ok? <==> old(storage.nextBlock).Some?
      ensures storage.nextBlock.None?
      ensures storage.nextImport == if status.Ok? then old(storage.nextBlock) else old(storage.nextImport)
    {
      var build := storage.nextBlock;
      if build.None? {
        return JudgeFailed;
      }
      storage.nextBlock := None;
      storage.nextImport := build;
      storage.approved := storage.approved + {build.value.serial};
      status := Status.Ok;
    }

    method Reject() returns (status: Status)
      modifies storage
      ensures status.Ok? && storage.View() == Protocol.Reject(old(storage.View()))
      ensures storage.nextBlock.None? && storage.nextImport == old(storage.nextImport)
    {
      storage.nextBlock := None;
      status := Status.Ok;
    }
  }

  class ParachainBuilder {
    const id: Id
    const builder: Builder<Kv>
    const storage: BlockStorage
    var imports: seq<Built>
    var built: nat

    ghost predicate Valid()
      reads this, builder
    {
      builder.Valid()
    }

    ghost function View(): Para
      reads this, builder
    {
      Para(id, builder.chain, imports, built)
    }

    constructor (id: Id, builder: Builder<Kv>, storage: BlockStorage)
      requires builder.Valid()
      ensures Valid() && this.id == id && this.builder == builder && this.storage == storage
      ensures View() == Para(id, builder.chain, [], 0)
    {
      this.id, this.builder, this.storage := id, builder, storage;
      imports, built := [], 0;
    }

    method Head() returns (head: HeadData)
      requires Valid()
      ensures head == Tip(View().chain)
    {
      head := builder.LatestHeader();
    }

    method BuildBlock(post: Kv, digest: nat, body: Body, fails: bool, leaf: Answer) returns (status: Status)
      requires Valid()
      modifies this, builder, storage
      ensures Valid()
      ensures (status, View(), storage.View())
              == BuildPara(old(View()), old(storage.View()), post, digest, body, fails, leaf)
      ensures builder.Bodies() == old(builder.Bodies())
      ensures status.Ok? && leaf.Imported? ==>
                var header := Child(old(builder.chain), post, digest);
                && HashOf(header) in builder.records
                && (HashOf(header) !in old(builder.records) ==>
                      builder.records[HashOf(header)] == Record(header, body, Some(post)))
    {
      hide IsChildOfTip, Indexed, Filed, OnlyCanonical, StatesKept, BodiesOf;
      builder.BestIsTip();
      if fails {
        return CoreBuilderFailed;
      }
      var parent := builder.LatestHeader();
      var header := builder.BuildBlock(post, digest);
      var imported := builder.ImportLeaf(header, body, leaf);
      if imported.Err? {
        return CoreBuilderFailed;
      }
      storage.nextBlock := Some(Built(header, body, parent.root, built));
      built := built + 1;
      status := Status.Ok;
    }

    /** With nothing approved the call succeeds and does nothing. */
    method ImportBlock(answer: Answer) returns (status: Status)
      requires Valid()
      modifies this, builder, storage
      ensures Valid()
      ensures (status, View(), storage.View()) == ImportPara(old(View()), old(storage.View()), answer)
      ensures builder.Bodies() == old(builder.Bodies())
              + if |builder.chain| > |old(builder.chain)| then [old(storage.nextImport).value.body] else []
    {
      hide Indexed, Filed, OnlyCanonical, StatesKept, BodiesOf, KeptBut;
      var nextImport := storage.nextImport;
      if nextImport.None? {
        return Status.Ok;
      }
      var imported := builder.ImportBest(nextImport.value.header, nextImport.value.body, answer);
      if imported.Err? {
        return CoreBuilderFailed;
      }
      imports := imports + [nextImport.value];
      storage.nextImport := None;
      status := Status.Ok;
    }

    /** Rewrites the tip even while a block is on its way. */
    method WithMutState<R>(exec: (Kv, Records<Kv>) -> Executed<Kv, R>, fault: Fault)
      returns (status: Status, result: Option<R>)
      requires Valid()
      modifies builder
      ensures Valid()
      ensures var state := Tip(old(View()).chain).root;
              var done := exec(state, old(builder.Visible()));
              var ending := Ending(old(builder.version(builder.VersionState())).Some?, Ending(done.Finished?, fault));
              && (status, View()) == MutatePara(old(View()), Landing(done, state), ending)
              && (status.Ok? ==> done.Finished? && result == Some(done.result))
      ensures status.Ok? ==> builder.Bodies() == old(builder.Bodies())
      ensures |builder.chain| <= |old(builder.chain)| && builder.Bodies() == old(builder.Bodies())[..|builder.chain|]
    {
      hide RewriteTip, DropTip, CommitError, BodiesOf, Indexed, Filed, OnlyCanonical, StatesKept;
      ghost var done := exec(Tip(builder.chain).root, builder.Visible());
      CommitEnds(fault, |builder.chain| == 1, builder.version(builder.VersionState()).Some?, done.Finished?);
      var committed := builder.WithMutState(exec, IoOf(fault));
      match committed {
        case Ok(value) => status, result := Status.Ok, Some(value);
        case Err(_) => status, result := CoreBuilderFailed, None;
      }
    }
  }
}
