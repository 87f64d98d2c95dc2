/** The core builder over a hash-keyed block database whose tip can be rewritten.

    The database is what the builder sees of the client and backend: records by hash, the
    number-to-hash index, the best and the finalized hash.  `chain` is its abstract value, the list of
    canonical headers; `Roots(chain)` is the plain list of states the database refines.
 */
module Database {
  import opened Ledger
  import opened Externalities

  /** `state` is `None` once the backend has discarded it; header and body stay readable. */
  datatype Record<S> = Record(header: Header<S>, body: Body, state: Option<S>)

  type Records<S(==)> = map<Hash<S>, Record<S>>

  datatype BlockId<S> = AtHash(hash: Hash<S>) | AtNumber(number: nat)

  /** Where the backend raises an error during one commit, if it does. */
  datatype Io =
    | Healthy
    | AtStateLookup
    | AtBegin
    | AtBeginState
    | AtNumberLookup
    | AtRevert
    | AtHeaderRead
    | AtDbUpdate
    | AtStorageUpdate
    | AtIndexUpdate
    | AtBodyRead
    | AtIndexedBodyRead
    | AtJustificationsRead
    | AtBlockData
    | AtCommit

  /** Where the backend raises an error during one lookup, if it does. */
  datatype ReadIo = ReadsFine | HashUnreadable | HeaderUnreadable

  datatype Error =
    | StateNotAvailable
    | BlockHashRetrieval
    | BlockHashNotFound
    | HeaderRetrieval
    | HeaderNotFound
    | BackendOperationStart
    | BackendStateOperationStart
    | BlockNumberRetrieval
    | BackendOperationReversal
    | RuntimeVersionRetrieval
    | ExternalitiesExecution
    | DBStorageUpdate
    | StorageUpdate
    | TransactionIndexUpdate
    | StateRetrieval
    | BlockIndexedBodyRetrieval
    | JustificationsRetrieval
    | BlockDataSet
    | BackendOperationCommit
    | BlockImporting

  datatype Result<T> = Ok(value: T) | Err(error: Error)

  datatype Operation<S> = Operation(header: Header<S>, body: Body, state: S)

  /** Errors raised while the tip is still in place; genesis is not reverted. */
  function StartError(io: Io, genesis: bool): Option<Error> {
    match io
    case AtStateLookup => Some(StateNotAvailable)
    case AtBegin => Some(BackendOperationStart)
    case AtBeginState => Some(BackendStateOperationStart)
    case AtNumberLookup => Some(BlockNumberRetrieval)
    case AtRevert => if genesis then None else Some(BackendOperationReversal)
    case _ => None
  }

  /** Errors raised while the operation is filled; only a reverted block is read back. */
  function FillError(io: Io, genesis: bool): Option<Error> {
    match io
    case AtHeaderRead => if genesis then None else Some(HeaderRetrieval)
    case AtDbUpdate => Some(DBStorageUpdate)
    case AtStorageUpdate => Some(StorageUpdate)
    case AtIndexUpdate => Some(TransactionIndexUpdate)
    case AtBodyRead => if genesis then None else Some(StateRetrieval)
    case AtIndexedBodyRead => if genesis then None else Some(BlockIndexedBodyRetrieval)
    case AtJustificationsRead => if genesis then None else Some(JustificationsRetrieval)
    case AtBlockData => Some(BlockDataSet)
    case _ => None
  }

  /** What ends a commit before its operation reaches the backend, if anything does. */
  function PrepareError(io: Io, genesis: bool, usableCode: bool, finished: bool): Option<Error> {
    if StartError(io, genesis).Some? then StartError(io, genesis)
    else if !usableCode then Some(RuntimeVersionRetrieval)
    else if !finished then Some(ExternalitiesExecution)
    else FillError(io, genesis)
  }

  /** What ends a commit, if anything does. */
  function CommitError(io: Io, genesis: bool, usableCode: bool, finished: bool): Option<Error> {
    var failed := PrepareError(io, genesis, usableCode, finished);
    if failed.Some? then failed else if io == AtCommit then Some(BackendOperationCommit) else None
  }

  predicate FailsBeforeRevert(io: Io) {
    StartError(io, false).Some?
  }

  /** The points a commit of genesis does not pass: nothing is reverted and nothing read back. */
  predicate SkippedAtGenesis(io: Io) {
    io in {AtRevert, AtHeaderRead, AtBodyRead, AtIndexedBodyRead, AtJustificationsRead}
  }

  /** Which error a commit ends in.  The backend's points before the code is looked at come first, then the
      code, then the closure, then the other points. */
  lemma CommitErrors(io: Io, genesis: bool, usableCode: bool, finished: bool)
    ensures var error, passed := CommitError(io, genesis, usableCode, finished),
                io == Healthy || (genesis && SkippedAtGenesis(io));
            && (error.None? <==> passed && usableCode && finished)
            && (FailsBeforeRevert(io) <==> io in {AtStateLookup, AtBegin, AtBeginState, AtNumberLookup, AtRevert})
            && (!passed && FailsBeforeRevert(io) ==>
                  match io
                  case AtStateLookup => error == Some(StateNotAvailable)
                  case AtBegin => error == Some(BackendOperationStart)
                  case AtBeginState => error == Some(BackendStateOperationStart)
                  case AtNumberLookup => error == Some(BlockNumberRetrieval)
                  case _ => error == Some(BackendOperationReversal))
            && (passed || !FailsBeforeRevert(io) ==>
                  if !usableCode then error == Some(RuntimeVersionRetrieval)
                  else if !finished then error == Some(ExternalitiesExecution)
                  else
                    !passed ==>
                      match io
                      case AtHeaderRead => error == Some(HeaderRetrieval)
                      case AtDbUpdate => error == Some(DBStorageUpdate)
                      case AtStorageUpdate => error == Some(StorageUpdate)
                      case AtIndexUpdate => error == Some(TransactionIndexUpdate)
                      case AtBodyRead => error == Some(StateRetrieval)
                      case AtIndexedBodyRead => error == Some(BlockIndexedBodyRetrieval)
                      case AtJustificationsRead => error == Some(JustificationsRetrieval)
                      case AtBlockData => error == Some(BlockDataSet)
                      case _ => error == Some(BackendOperationCommit))
  {
  }

  function StateAt<S(==)>(records: Records<S>, hash: Hash<S>): Option<S> {
    if hash in records then records[hash].state else None
  }

  /** The records once the tip has come off: an archive keeps its state, any other backend discards it. */
  function WithoutTip<S(==)>(records: Records<S>, tip: Hash<S>, archive: bool): Records<S>
    requires tip in records
  {
    if archive then records else records[tip := records[tip].(state := None)]
  }

  lemma RefiledTip<S>(chain: seq<Header<S>>, header: Header<S>)
    requires Linked(chain) && header == Tip(chain).(root := header.root)
    ensures header.number == |chain| - 1 <= |DropTip(chain)|
    ensures |chain| > 1 ==> IsChildOfTip(header, DropTip(chain))
    ensures |chain| == 1 ==> header.number == 0 && header.parent == Zero
    ensures DropTip(chain)[..header.number] + [header] == chain[..header.number] + [header]
            == RewriteTip(chain, header.root)
  {
  }

  /** The number index holds exactly the canonical chain. */
  ghost predicate Indexed<S>(chain: seq<Header<S>>, canonical: map<nat, Hash<S>>) {
    && (forall n: nat :: n in canonical <==> n < |chain|)
    && (forall i :: 0 <= i < |chain| ==> canonical[i] == HashOf(chain[i]))
  }

  /** Every record lies under its own hash with a state matching its root, and the state of every
      canonical block is available. */
  ghost predicate Filed<S>(chain: seq<Header<S>>, records: Records<S>) {
    && (forall i :: 0 <= i < |chain| ==> HashOf(chain[i]) in records && records[HashOf(chain[i])].state.Some?)
    && (forall h :: h in records ==> WellFiled(h, records[h]))
  }

  ghost predicate WellFiled<S>(h: Hash<S>, record: Record<S>) {
    HashOf(record.header) == h && (record.state.Some? ==> record.state.value == record.header.root)
  }

  /** No header and no body is lost. */
  ghost predicate Kept<S>(before: Records<S>, after: Records<S>) {
    forall h :: h in before ==>
      h in after && after[h].header == before[h].header && after[h].body == before[h].body
  }

  ghost predicate StatesKept<S>(before: Records<S>, after: Records<S>) {
    forall h :: h in before && before[h].state.Some? ==> StateAt(after, h).Some?
  }

  /** The states available are those of the canonical chain and no others. */
  ghost predicate OnlyCanonical<S>(chain: seq<Header<S>>, records: Records<S>) {
    forall h :: h in records && records[h].state.Some? ==> h.HashOf? && h.header in chain
  }

  /** The same of every record but the one under `hash`. */
  ghost predicate KeptBut<S>(before: Records<S>, after: Records<S>, hash: Hash<S>) {
    forall h :: h in before && h != hash ==>
      h in after && after[h].header == before[h].header && after[h].body == before[h].body
  }

  /** The bodies of the blocks of a chain. */
  ghost function BodiesOf<S>(chain: seq<Header<S>>, records: Records<S>): (bodies: seq<Body>)
    ensures |bodies| == |chain|
  {
    seq(|chain|, i requires 0 <= i < |chain| =>
      if HashOf(chain[i]) in records then records[HashOf(chain[i])].body else [])
  }

  lemma BodiesKept<S>(chain: seq<Header<S>>, before: Records<S>, after: Records<S>)
    requires forall i :: 0 <= i < |chain| ==> HashOf(chain[i]) in before
    requires Kept(before, after)
    ensures BodiesOf(chain, after) == BodiesOf(chain, before)
  {
  }

  lemma BodiesOfPrefix<S>(chain: seq<Header<S>>, records: Records<S>, n: nat)
    requires n <= |chain|
    ensures BodiesOf(chain[..n], records) == BodiesOf(chain, records)[..n]
  {
  }

  lemma BodiesWithoutTip<S>(chain: seq<Header<S>>, records: Records<S>, archive: bool)
    requires |chain| > 0 && Filed(chain, records)
    ensures BodiesOf(chain[..|chain| - 1], WithoutTip(records, HashOf(Tip(chain)), archive))
            == BodiesOf(chain, records)[..|chain| - 1]
  {
  }

  /** Filing a block at its number puts its body there and leaves the bodies before it. */
  lemma BodiesFiled<S>(chain: seq<Header<S>>, records: Records<S>, header: Header<S>, body: Body, archive: bool)
    requires Linked(chain) && Filed(chain, records) && header.number <= |chain|
    ensures var filed := Refiled(records, header, body, HashOf(Tip(chain)), archive);
            && BodiesOf(chain[..header.number] + [header], filed)
               == BodiesOf(chain, records)[..header.number] + [body]
            && KeptBut(records, filed, HashOf(header))
  {
  }

  lemma KeptAtFirst<S>(records: Records<S>)
    ensures Kept(records, records)
  {
  }

  lemma StatesKeptAtFirst<S>(records: Records<S>)
    ensures StatesKept(records, records)
  {
  }

  lemma KeptTwice<S>(before: Records<S>, between: Records<S>, after: Records<S>)
    requires Kept(before, between) && Kept(between, after)
    ensures Kept(before, after)
  {
  }

  lemma UnfileTip<S>(chain: seq<Header<S>>, canonical: map<nat, Hash<S>>, records: Records<S>, archive: bool)
    requires Linked(chain) && Indexed(chain, canonical) && Filed(chain, records) && |chain| > 1
    ensures var tip := HashOf(Tip(chain)); var rest := chain[..|chain| - 1];
            var after := WithoutTip(records, tip, archive);
            && Linked(rest) && Indexed(rest, canonical - {|chain| - 1})
            && Filed(rest, after) && Kept(records, after) && (archive ==> StatesKept(records, after))
            && (!archive && OnlyCanonical(chain, records) ==> OnlyCanonical(rest, after))
  {
    var tip := HashOf(Tip(chain));
    forall h | !archive && OnlyCanonical(chain, records) && h in records && h != tip && records[h].state.Some?
      ensures h.HashOf? && h.header in chain[..|chain| - 1]
    {
      var i :| 0 <= i < |chain| && chain[i] == h.header;
      assert chain[..|chain| - 1][i] == h.header;
    }
  }

  /** The records after a block is filed at its number.  Only at genesis does this take a block off the
      chain; its state is treated as a reverted block's. */
  function Refiled<S(==)>(records: Records<S>, header: Header<S>, body: Body, best: Hash<S>, archive: bool): Records<S>
    requires best in records
  {
    var before := if header.number == 0 then WithoutTip(records, best, archive) else records;
    before[HashOf(header) := Record(header, body, Some(header.root))]
  }

  lemma FileBlock<S>(chain: seq<Header<S>>, canonical: map<nat, Hash<S>>, records: Records<S>,
                     header: Header<S>, body: Body, archive: bool)
    requires Linked(chain) && Indexed(chain, canonical) && Filed(chain, records)
    requires if header.number == 0 then |chain| == 1 && header.parent == Zero else IsChildOfTip(header, chain)
    ensures var after := chain[..header.number] + [header];
            var filed := Refiled(records, header, body, HashOf(Tip(chain)), archive);
            && Linked(after) && Indexed(after, canonical[header.number := HashOf(header)])
            && Filed(after, filed) && (archive ==> StatesKept(records, filed))
            && (!archive && OnlyCanonical(chain, records) ==> OnlyCanonical(after, filed))
  {
    var after := chain[..header.number] + [header];
    assert forall i :: 0 <= i < |after| ==> after[i] == if i == header.number then header else chain[i];
    var filed := Refiled(records, header, body, HashOf(Tip(chain)), archive);
    forall h | !archive && OnlyCanonical(chain, records) && h in filed && filed[h].state.Some?
      ensures h.HashOf? && h.header in after
    {
      if h == HashOf(header) {
        assert after[header.number] == header;
      } else {
        var i :| 0 <= i < |chain| && chain[i] == h.header;
        assert after[i] == h.header;
      }
    }
  }

  class Builder<S(==)> {
    var records: Records<S>
    var canonical: map<nat, Hash<S>>
    var best: Hash<S>
    var finalized: Hash<S>
    /** Runtime version of the code a state holds; `None` when there is no usable code. */
    const version: S -> Option<nat>
    /** Whether the backend keeps the states of blocks taken off the chain. */
    const archive: bool
    ghost var chain: seq<Header<S>>

    ghost predicate Valid()
      reads this
    {
      && Linked(chain)
      && chain[0].digest == DEFAULT_DIGEST
      && best == finalized == HashOf(Tip(chain))
      && Indexed(chain, canonical)
      && Filed(chain, records)
      && HashOf(chain[0]) in records && records[HashOf(chain[0])].body == []
    }

    /** The bodies of the canonical blocks. */
    ghost function Bodies(): (bodies: seq<Body>)
      reads this
      ensures |bodies| == |chain|
    {
      BodiesOf(chain, records)
    }

    ghost function States(): (states: seq<S>)
      reads this
    {
      Roots(chain)
    }

    ghost function BestBody(): Body
      reads this
      requires best in records
    {
      records[best].body
    }

    /** The state whose code decides the state version of a commit: once the tip has been reverted,
        that is the parent's. */
    ghost function VersionState(): S
      reads this
      requires Linked(chain)
    {
      VersionRoot(chain)
    }

    /** What a closure being committed can read of the database: everything but, without an archive, the
        state of the tip it is about to replace. */
    ghost function Visible(): Records<S>
      reads this
      requires Valid()
    {
      if |chain| == 1 then records else WithoutTip(records, best, archive)
    }

    /** Nothing has been imported beside the canonical chain. */
    ghost predicate OneChain()
      reads this
    {
      !archive ==> OnlyCanonical(chain, records)
    }

    constructor (genesis: S, version: S -> Option<nat>, archive: bool)
      ensures Valid() && OneChain()
      ensures this.version == version && this.archive == archive
      ensures chain == [Header(Zero, 0, genesis, DEFAULT_DIGEST)] && Bodies() == [[]]
    {
      var header := Header(Zero, 0, genesis, DEFAULT_DIGEST);
      records := map[HashOf(header) := Record(header, [], Some(genesis))];
      canonical := map[0 := HashOf(header)];
      best, finalized := HashOf(header), HashOf(header);
      this.version, this.archive := version, archive;
      chain := [header];
    }

    method GetBlockHash(at: BlockId<S>, io: ReadIo) returns (hash: Result<Hash<S>>)
      requires Valid()
      ensures at.AtHash? ==> hash == Ok(at.hash)
      ensures at.AtNumber? ==>
                hash == if io == HashUnreadable then Err(BlockHashRetrieval)
                        else if at.number < |chain| then Ok(HashOf(chain[at.number]))
                        else Err(BlockHashNotFound)
    {
      match at
      case AtHash(h) => hash := Ok(h);
      case AtNumber(n) =>
        if io == HashUnreadable {
          return Err(BlockHashRetrieval);
        }
        hash := if n in canonical then Ok(canonical[n]) else Err(BlockHashNotFound);
    }

    method GetBlockHeader(at: BlockId<S>, io: ReadIo) returns (header: Result<Header<S>>)
      requires Valid()
      ensures header.Ok? && at.AtHash? ==> HashOf(header.value) == at.hash
      ensures header.Ok? && at.AtNumber? ==> at.number < |chain| && header.value == chain[at.number]
      ensures at.AtNumber? ==> (header.Ok? <==> io == ReadsFine && at.number < |chain|)
      ensures at.AtHash? ==> (header.Ok? <==> io != HeaderUnreadable && at.hash in records)
      ensures header.Err? && at.AtHash? ==> header.error == if io == HeaderUnreadable then HeaderRetrieval
              else HeaderNotFound
      ensures header.Err? && at.AtNumber? ==>
                header.error == if io == HashUnreadable then BlockHashRetrieval
                                else if at.number >= |chain| then BlockHashNotFound
                                else HeaderRetrieval
    {
      var hash := GetBlockHash(at, io);
      if hash.Err? {
        return Err(hash.error);
      }
      if io == HeaderUnreadable {
        return Err(HeaderRetrieval);
      }
      if hash.value !in records {
        return Err(HeaderNotFound);
      }
      header := Ok(records[hash.value].header);
    }

    method LatestHeader() returns (header: Header<S>)
      requires Valid()
      ensures header == Tip(chain)
    {
      header := records[best].header;
    }

    /** Dry run at a block or at the best block: a read of the list of states, and of nothing else. */
    method DryRun<R>(at: Option<BlockId<S>>, exec: S -> R) returns (result: Result<R>)
      requires Valid()
      ensures at.None? ==> result == Ok(exec(States()[|States()| - 1]))
      ensures at.Some? && at.value.AtNumber? ==>
                var m := at.value.number;
                if m < |States()| then result == Ok(exec(States()[m])) else result == Err(BlockHashNotFound)
      ensures forall m :: 0 <= m < |chain| && at == Some(AtHash(HashOf(chain[m]))) ==> result == Ok(exec(States()[m]))
      ensures at.Some? && at.value.AtHash? ==>
                var state := StateAt(records, at.value.hash);
                result == if state.Some? then Ok(exec(state.value)) else Err(StateNotAvailable)
    {
      var hash := best;
      if at.Some? {
        var found := GetBlockHash(at.value, ReadsFine);
        if found.Err? {
          return Err(found.error);
        }
        hash := found.value;
      }
      if hash !in records || records[hash].state.None? {
        return Err(StateNotAvailable);
      }
      result := Ok(exec(records[hash].state.value));
    }

    method StateVersion() returns (v: Result<nat>)
      requires Valid()
      ensures v == if this.version(Tip(chain).root).Some? then Ok(this.version(Tip(chain).root).value)
              else Err(RuntimeVersionRetrieval)
    {
      var code := DryRun(None, version);
      v := if code.Ok? && code.value.Some? then Ok(code.value.value) else Err(RuntimeVersionRetrieval);
    }

    lemma BestIsTip()
      requires Valid()
      ensures Linked(chain) && best in records && records[best].header == Tip(chain) && Tip(chain).number == |chain| - 1
      ensures records[best].state == Some(Tip(chain).root)
    {
    }

    lemma BestBodyIsLast()
      requires Valid()
      ensures |chain| > 0 && best in records && BestBody() == Bodies()[|chain| - 1] && Bodies()[0] == []
    {
    }

    lemma GenesisAndTip()
      requires Valid()
      ensures |chain| > 1 ==> HashOf(chain[0]) in records && HashOf(chain[0]) != best
      ensures Filed(chain, records) && best == HashOf(Tip(chain))
    {
    }

    method RevertOne()
      requires Valid() && |chain| > 1
      modifies this
      ensures Valid() && (old(OneChain()) ==> OneChain())
      ensures chain == old(chain)[..|old(chain)| - 1]
      ensures records == WithoutTip(old(records), old(best), archive)
      ensures Kept(old(records), records) && Bodies() == old(Bodies())[..|chain|]
    {
      hide Filed, Indexed, OnlyCanonical, Kept, StatesKept, BodiesOf;
      BestIsTip();
      GenesisAndTip();
      BodiesWithoutTip(chain, records, archive);
      var header := records[best].header;
      UnfileTip(chain, canonical, records, archive);
      if !archive {
        records := records[best := records[best].(state := None)];
      }
      canonical := canonical - {header.number};
      best, finalized := header.parent, header.parent;
      chain := chain[..|chain| - 1];
    }

    /** `n` blocks come off the tip, finalized ones included; genesis stays. */
    method Revert(n: nat)
      requires Valid()
      modifies this
      ensures Valid() && (old(OneChain()) ==> OneChain())
      ensures chain == old(chain)[..if n < |old(chain)| then |old(chain)| - n else 1]
      ensures Kept(old(records), records) && Bodies() == old(Bodies())[..|chain|]
      ensures n == 1 && |old(chain)| > 1 ==> records == old(Visible())
    {
      hide Valid, OneChain, Kept, WithoutTip, BodiesOf;
      BestIsTip();
      KeptAtFirst(records);
      var reverted := 0;
      while reverted < n && records[best].header.number > 0
        invariant Valid() && |chain| > 0 && best in records && records[best].header.number == |chain| - 1
        invariant 0 <= reverted <= n && reverted < |old(chain)|
        invariant chain == old(chain)[..|old(chain)| - reverted]
        invariant Kept(old(records), records) && (old(OneChain()) ==> OneChain())
        invariant Bodies() == old(Bodies())[..|chain|]
        invariant reverted == 0 ==> records == old(records) && best == old(best)
        invariant reverted == 1 ==> |old(chain)| > 1 && records == WithoutTip(old(records), old(best), archive)
      {
        ghost var before := records;
        RevertOne();
        BestIsTip();
        KeptTwice(old(records), before, records);
        reverted := reverted + 1;
      }
    }

    /** Only a finalized best block is reverted; in every valid state the best block is finalized, so
        exactly the tip comes off. */
    method CheckBestHashAndRevert(n: nat)
      requires Valid()
      modifies this
      ensures Valid() && (old(OneChain()) ==> OneChain())
      ensures chain == old(chain)[..if n < |old(chain)| then |old(chain)| - n else 1]
      ensures Kept(old(records), records) && Bodies() == old(Bodies())[..|chain|]
      ensures n == 1 && |old(chain)| > 1 ==> records == old(Visible())
    {
      if best == finalized {
        Revert(n);
      }
    }

    /** Commit the operation as final best block at its own height. */
    method CommitOperation(op: Operation<S>)
      requires Valid()
      requires op.state == op.header.root
      requires if op.header.number == 0
               then |chain| == 1 && op.header.parent == Zero && op.header.digest == DEFAULT_DIGEST && op.body == []
               else IsChildOfTip(op.header, chain)
      modifies this
      ensures Valid() && (old(OneChain()) ==> OneChain())
      ensures chain == old(chain)[..op.header.number] + [op.header]
      ensures BestBody() == op.body && Bodies() == old(Bodies())[..op.header.number] + [op.body]
      ensures KeptBut(old(records), records, HashOf(op.header))
      ensures archive ==> StatesKept(old(records), records)
    {
      hide Linked, Indexed, Filed, OnlyCanonical, StatesKept, WithoutTip, BodiesOf, KeptBut;
      BestIsTip();
      BodiesFiled(chain, records, op.header, op.body, archive);
      FileBlock(chain, canonical, records, op.header, op.body, archive);
      var hash := HashOf(op.header);
      records := Refiled(records, op.header, op.body, best, archive);
      canonical := canonical[op.header.number := hash];
      best, finalized := hash, hash;
      chain := chain[..op.header.number] + [op.header];
    }

    method MutateGenesis<R>(state: S, exec: (S, Records<S>) -> Executed<S, R>, io: Io)
      returns (op: Result<(Operation<S>, R)>)
      requires Valid() && |chain| == 1 && state == chain[0].root
      ensures op.Err? && StartError(io, true).None? ==>
                Some(op.error) == PrepareError(io, true, version(state).Some?, exec(state, records).Finished?)
      ensures op.Ok? <==> version(state).Some? && exec(state, records).Finished? && FillError(io, true).None?
      ensures op.Ok? ==>
                var post := exec(state, records).post;
                op.value.0 == Operation(chain[0].(root := post), [], post)
      ensures op.Ok? ==> op.value.1 == exec(state, records).result
    {
      var v := StateVersion();
      if v.Err? {
        return Err(v.error);
      }
      var outcome := exec(state, records);
      if !outcome.Finished? {
        return Err(ExternalitiesExecution);
      }
      var failed := FillError(io, true);
      if failed.Some? {
        return Err(failed.value);
      }
      op := Ok((Operation(Header(Zero, 0, outcome.post, DEFAULT_DIGEST), [], outcome.post), outcome.result));
    }

    /** Re-file the reverted block `at` with its state root replaced; header, body otherwise as they were. */
    method MutateNormal(post: S, at: Hash<S>, io: Io) returns (op: Result<Operation<S>>)
      requires Valid()
      ensures op.Ok? <==> at in records && FillError(io, false).None?
      ensures op.Ok? ==> op.value == Operation(records[at].header.(root := post), records[at].body, post)
      ensures op.Err? ==>
                op.error == if at !in records && io != AtHeaderRead then HeaderNotFound else FillError(io, false).value
    {
      var header := GetBlockHeader(AtHash(at), if io == AtHeaderRead then HeaderUnreadable else ReadsFine);
      if header.Err? {
        return Err(header.error);
      }
      var hash := HashOf(header.value);
      match FillError(io, false) {
        case Some(error) => op := Err(error);
        case None => op := Ok(Operation(header.value.(root := post), records[hash].body, post));
      }
    }

    /** Revert the tip, run the closure on its state, file the block again with the new root. */
    method ReplaceTip<R>(state: S, exec: (S, Records<S>) -> Executed<S, R>, io: Io)
      returns (op: Result<(Operation<S>, R)>)
      requires Valid() && |chain| > 1 && state == Tip(chain).root
      modifies this
      ensures Valid() && (old(OneChain()) ==> OneChain())
      ensures op.Ok? <==> io != AtRevert && FillError(io, false).None?
                          && old(version(VersionState())).Some? && exec(state, old(Visible())).Finished?
      ensures op.Err? && (io == AtRevert || StartError(io, false).None?) ==>
                Some(op.error)
                == PrepareError(io, false, old(version(VersionState())).Some?, exec(state, old(Visible())).Finished?)
      ensures chain == if io == AtRevert then old(chain) else DropTip(old(chain))
      ensures Bodies() == old(Bodies())[..|chain|]
      ensures archive ==> records == old(records)
      ensures op.Ok? ==>
                var post := exec(state, old(Visible())).post;
                op.value.0 == Operation(Tip(old(chain)).(root := post), old(BestBody()), post)
      ensures op.Ok? ==> op.value.1 == exec(state, old(Visible())).result
    {
      hide Filed, Indexed, OnlyCanonical, BodiesOf;
      if io == AtRevert {
        return Err(BackendOperationReversal);
      }
      BestIsTip();
      var hash := best;
      CheckBestHashAndRevert(1);
      var v := StateVersion();
      if v.Err? {
        return Err(v.error);
      }
      var outcome := exec(state, records);
      if !outcome.Finished? {
        return Err(ExternalitiesExecution);
      }
      var filled := MutateNormal(outcome.post, hash, io);
      if filled.Err? {
        return Err(filled.error);
      }
      op := Ok((filled.value, outcome.result));
    }

    /** Everything a commit does before its operation is handed to the backend. */
    method FillOperation<R>(exec: (S, Records<S>) -> Executed<S, R>, io: Io) returns (op: Result<(Operation<S>, R)>)
      requires Valid()
      modifies this
      ensures Valid() && (old(OneChain()) ==> OneChain())
      ensures var genesis, done := |old(chain)| == 1, exec(Tip(old(chain)).root, old(Visible()));
              match PrepareError(io, genesis, old(version(VersionState())).Some?, done.Finished?)
              case None =>
                var body := if genesis then [] else old(BestBody());
                && done.Finished?
                && op == Ok((Operation(Tip(old(chain)).(root := done.post), body, done.post), done.result))
              case Some(error) => op == Err(error)
      ensures chain == if FailsBeforeRevert(io) then old(chain) else DropTip(old(chain))
      ensures Bodies() == old(Bodies())[..|chain|]
      ensures archive ==> records == old(records)
    {
      hide Linked, Indexed, Filed, OnlyCanonical, FillError, WithoutTip, BodiesOf;
      BestIsTip();
      if io == AtStateLookup {
        return Err(StateNotAvailable);
      }
      var state := records[best].state.value;
      var number := records[best].header.number;
      match StartError(io, true) {
        case Some(error) => return Err(error);
        case None =>
      }
      if number == 0 {
        op := MutateGenesis(state, exec, io);
      } else {
        op := ReplaceTip(state, exec, io);
      }
    }

    /** Commit at the best block.

        It succeeds exactly when the backend is healthy, the closure's transactions balance and the
        deciding state holds usable code.  A success replaces the last state by the closure's result on
        it and touches no older height.  A failure before the revert changes nothing; any later failure
        on a non-genesis tip leaves that tip removed.
     */
    method WithMutState<R>(exec: (S, Records<S>) -> Executed<S, R>, io: Io) returns (result: Result<R>)
      requires Valid()
      modifies this
      ensures Valid() && (old(OneChain()) ==> OneChain())
      ensures var done := exec(Tip(old(chain)).root, old(Visible()));
              match CommitError(io, |old(chain)| == 1, old(version(VersionState())).Some?, done.Finished?)
              case None => done.Finished? && result == Ok(done.result)
                  && chain == Commit(old(chain), done.post, NoFault)
              case Some(error) =>
                result == Err(error) && chain == if FailsBeforeRevert(io) then old(chain) else DropTip(old(chain))
      ensures result.Ok? ==>
                States() == old(States())[|old(chain)| - 1 := exec(Tip(old(chain)).root, old(Visible())).post]
      ensures |chain| <= |old(chain)| && Bodies() == old(Bodies())[..|chain|]
      ensures result.Ok? ==> Bodies() == old(Bodies())
      ensures result.Ok? && |chain| > 1 ==> BestBody() == old(BestBody())
      ensures archive ==> StatesKept(old(records), records)
    {
      hide Linked, Indexed, Filed, OnlyCanonical, FillError, WithoutTip, StatesKept, IsChildOfTip, BodiesOf, KeptBut,
          Roots;
      BestIsTip();
      BestBodyIsLast();
      StatesKeptAtFirst(records);
      var op := FillOperation(exec, io);
      if op.Err? {
        result := Err(op.error);
      } else if io == AtCommit {
        result := Err(BackendOperationCommit);
      } else {
        RefiledTip(old(chain), op.value.0.header);
        CommitKeepsLinks(old(chain), op.value.0.state, NoFault);
        CommitOperation(op.value.0);
        result := Ok(op.value.1);
      }
    }

    /** Propose a block on the best block; nothing is stored. */
    method BuildBlock(post: S, digest: nat) returns (header: Header<S>)
      requires Valid()
      ensures header == Child(chain, post, digest) && IsChildOfTip(header, chain)
      ensures header.root == post && header.digest == digest
    {
      var parent := LatestHeader();
      header := Header(HashOf(parent), parent.number + 1, post, digest);
    }

    /** Import as final best block.  Every answer but an error ends in `Ok`; only `Imported` on a child
        of the best block appends, and nothing else changes the list. */
    method ImportBest(header: Header<S>, body: Body, answer: Answer) returns (result: Result<()>)
      requires Valid()
      modifies this
      ensures Valid() && (old(OneChain()) ==> OneChain())
      ensures archive ==> StatesKept(old(records), records)
      ensures result.Err? <==> answer.ImportFailed?
      ensures result.Err? ==> result.error == BlockImporting
      ensures chain == Ledger.ImportBest(old(chain), header, answer)
      ensures answer.Imported? && IsChildOfTip(header, old(chain)) ==> States() == old(States()) + [header.root]
      ensures Bodies() == old(Bodies()) + if |chain| > |old(chain)| then [body] else []
      ensures answer.Imported? && IsChildOfTip(header, old(chain)) ==> BestBody() == body
      ensures KeptBut(old(records), records, HashOf(header))
    {
      hide Indexed, Filed, OnlyCanonical, BodiesOf, StatesKept;
      BestIsTip();
      BestBodyIsLast();
      StatesKeptAtFirst(records);
      if answer.ImportFailed? {
        return Err(BlockImporting);
      }
      if answer.Imported? && header.parent == best && header.number == records[best].header.number + 1 {
        CommitOperation(Operation(header, body, header.root));
      }
      result := Ok(());
    }

    /** Import without moving the best block: the record is stored beside the canonical chain. */
    method ImportLeaf(header: Header<S>, body: Body, answer: Answer) returns (result: Result<()>)
      requires Valid()
      modifies this
      ensures Valid()
      ensures result.Err? <==> answer.ImportFailed?
      ensures result.Err? ==> result.error == BlockImporting
      ensures chain == old(chain) && Bodies() == old(Bodies()) && Kept(old(records), records)
      ensures answer.Imported? && header.parent in old(records) && HashOf(header) !in old(records) ==>
                records == old(records)[HashOf(header) := Record(header, body, Some(header.root))]
    {
      if answer.ImportFailed? {
        return Err(BlockImporting);
      }
      if answer.Imported? && header.parent in records && HashOf(header) !in records {
        records := records[HashOf(header) := Record(header, body, Some(header.root))];
      }
      result := Ok(());
    }
  }
}
