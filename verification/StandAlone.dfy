/** The stand-alone builder: one chain of key-value states, one slot for the block built next. */
module StandAlone {
  import opened Ledger
  import opened Externalities
  import opened Database

  datatype Proposal<S> = Proposal(header: Header<S>, body: Body)

  datatype Outcome<T> = Success(value: T) | Failure(error: Error) | NextBlockNotFound | Panicked

  class StandAloneBuilder {
    const builder: Builder<Kv>
    var next: Option<Proposal<Kv>>
    var imports: seq<Proposal<Kv>>

    /** A block waiting for import always sits on the current best block. */
    ghost predicate Valid()
      reads this, builder
    {
      builder.Valid() && (next.Some? ==> IsChildOfTip(next.value.header, builder.chain))
    }

    constructor (builder: Builder<Kv>)
      requires builder.Valid()
      ensures Valid() && this.builder == builder && next.None? && imports == []
    {
      this.builder := builder;
      next, imports := None, [];
    }

    method BuildBlock(post: Kv, body: Body, digest: nat, fails: Option<Error>) returns (result: Outcome<Proposal<Kv>>)
      requires Valid()
      modifies this
      ensures Valid() && imports == old(imports)
      ensures result.Panicked? <==> old(next).Some?
      ensures result.Success? <==> old(next).None? && fails.None?
      ensures result.Failure? ==> fails == Some(result.error)
      ensures !result.NextBlockNotFound?
      ensures result.Success? ==>
                result.value.header == Child(builder.chain, post, digest) && result.value.body == body
      ensures next == if result.Success? then Some(result.value) else old(next)
    {
      if next.Some? {
        return Panicked;
      }
      if fails.Some? {
        return Failure(fails.value);
      }
      var header := builder.BuildBlock(post, digest);
      next := Some(Proposal(header, body));
      result := Success(Proposal(header, body));
    }

    /** The slot is emptied before the import is attempted; the list of states grows by exactly the
        built state when the client answers `Imported` and stays as it was on every other answer. */
    method ImportBlock(answer: Answer) returns (result: Outcome<()>)
      requires Valid()
      modifies this, builder
      ensures Valid() && next.None?
      ensures result.NextBlockNotFound? <==> old(next).None?
      ensures result.Success? <==> old(next).Some? && !answer.ImportFailed?
      ensures result.Failure? ==> result.error == BlockImporting
      ensures !result.Panicked?
      ensures imports == if result.Success? then old(imports) + [old(next).value] else old(imports)
      ensures builder.States() ==
              if old(next).Some? && answer.Imported? then old(builder.States()) + [old(next).value.header.root]
              else old(builder.States())
      ensures builder.Bodies() ==
              if old(next).Some? && answer.Imported? then old(builder.Bodies()) + [old(next).value.body]
              else old(builder.Bodies())
    {
      var taken := next;
      next := None;
      if taken.None? {
        return NextBlockNotFound;
      }
      var imported := builder.ImportBest(taken.value.header, taken.value.body, answer);
      if imported.Err? {
        return Failure(imported.error);
      }
      imports := imports + [taken.value];
      result := Success(());
    }

    /** Dry run of a closure on the overlay at a height: element `at` of the list of states; nothing changes. */
    method WithStateAt<R>(at: nat, closure: Closure<R>, steps: nat) returns (result: Database.Result<Option<R>>)
      requires Valid()
      ensures if at < |builder.States()|
              then result == Ok(DirectRun(closure, steps, [], Direct(builder.States()[at], [])).1)
              else result == Err(BlockHashNotFound)
    {
      var state := builder.DryRun(Some(AtNumber(at)), state => state);
      if state.Err? {
        return Err(state.error);
      }
      var provider := new ExternalitiesProvider(state.value);
      var ran := provider.ExecuteWith(closure, steps);
      result := Ok(ran);
    }

    /** Commit of a closure, run on the overlay over the latest state.  The core builder gets what that
        came to, and looks at it only where it would have run the closure. */
    method WithMutState<R>(closure: Closure<R>, steps: nat, io: Io) returns (result: Outcome<R>)
      requires Valid()
      modifies this, builder
      ensures Valid() && imports == old(imports) && next == old(next)
      ensures result.Panicked? <==> old(next).Some?
      ensures result.Panicked? ==> builder.chain == old(builder.chain)
      ensures old(next).None? ==>
                match CommitError(io, |old(builder.chain)| == 1, old(builder.version(builder.VersionState())).Some?,
                                  Meaning(closure, steps, Tip(old(builder.chain)).root).Finished?)
                case None => result.Success?
                case Some(error) => result == Failure(error)
      ensures result.Success? ==>
                var outcome := Meaning(closure, steps, Tip(old(builder.chain)).root);
                && outcome.Finished? && outcome.result == result.value
                && builder.States() == old(builder.States())[|old(builder.States())| - 1 := outcome.post]
      ensures result.Failure? ==>
                builder.chain == if FailsBeforeRevert(io) then old(builder.chain) else DropTip(old(builder.chain))
      ensures result.Success? ==> builder.Bodies() == old(builder.Bodies())
      ensures |builder.chain| <= |old(builder.chain)| && builder.Bodies() == old(builder.Bodies())[..|builder.chain|]
    {
      hide Meaning, Indexed, Filed, OnlyCanonical, Linked, CommitError, RewriteTip, DropTip, StatesKept;
      if next.Some? {
        return Panicked;
      }
      var latest := builder.LatestHeader();
      var ran := ExecuteOnOverlay(latest.root, closure, steps);
      var committed := builder.WithMutState((_, _) => ran, io);
      if committed.Err? {
        return Failure(committed.error);
      }
      result := Success(committed.value);
    }
  }
}
