/** Headers, hashes and canonical chains: the vocabulary every builder shares.

    Hashing is symbolic: a header hash is the constructor `HashOf` applied to the header and a
    state root is the state itself, so both are injective and neither can be forged.  No operation
    takes a hash apart; hashes are only compared and used as keys.
 */
module Ledger {

  datatype Option<+T> = None | Some(value: T)

  datatype Hash<S> = Zero | HashOf(header: Header<S>)

  /** The extrinsics of a block. */
  type Body = seq<string>

  /** `digest` stands for every header field the builders leave alone (extrinsics root, logs). */
  datatype Header<S> = Header(parent: Hash<S>, number: nat, root: S, digest: nat)

  const DEFAULT_DIGEST: nat := 0

  /** What the consensus client answers to an import, or the error it raises. */
  datatype Answer = Imported | AlreadyInChain | KnownBad | UnknownParent | MissingState | ImportFailed

  /** Where, if anywhere, the backend fails during a commit: before the tip is reverted or after. */
  datatype Fault = NoFault | BeforeRevert | AfterRevert

  /** A canonical chain from genesis to the best block. */
  ghost predicate Linked<S>(chain: seq<Header<S>>) {
    && |chain| > 0
    && chain[0].parent == Zero
    && (forall i :: 0 <= i < |chain| ==> chain[i].number == i)
    && (forall i :: 0 < i < |chain| ==> chain[i].parent == HashOf(chain[i - 1]))
  }

  function Tip<S>(chain: seq<Header<S>>): Header<S>
    requires |chain| > 0
  {
    chain[|chain| - 1]
  }

  function RewriteTip<S>(chain: seq<Header<S>>, post: S): seq<Header<S>>
    requires |chain| > 0
  {
    chain[..|chain| - 1] + [Tip(chain).(root := post)]
  }

  function DropTip<S>(chain: seq<Header<S>>): seq<Header<S>>
    requires |chain| > 0
  {
    if |chain| == 1 then chain else chain[..|chain| - 1]
  }

  /** The state whose code decides how a commit encodes its changes: once the tip has been reverted, that
      is the parent's; genesis is not reverted. */
  function VersionRoot<S>(chain: seq<Header<S>>): S
    requires |chain| > 0
  {
    if |chain| == 1 then chain[0].root else chain[|chain| - 2].root
  }

  /** The chain after a commit that ends in the given way. */
  function Commit<S>(chain: seq<Header<S>>, post: S, fault: Fault): (after: seq<Header<S>>)
    requires |chain| > 0
    ensures |after| > 0
    ensures !fault.AfterRevert? ==> |after| == |chain|
  {
    match fault
    case NoFault => RewriteTip(chain, post)
    case BeforeRevert => chain
    case AfterRevert => DropTip(chain)
  }

  function Child<S>(chain: seq<Header<S>>, post: S, digest: nat): Header<S>
    requires |chain| > 0
  {
    Header(HashOf(Tip(chain)), |chain|, post, digest)
  }

  predicate IsChildOfTip<S(==)>(header: Header<S>, chain: seq<Header<S>>)
    requires |chain| > 0
  {
    header.parent == HashOf(Tip(chain)) && header.number == |chain|
  }

  /** Importing as new best: the client moves the best block only onto a child of it. */
  function ImportBest<S(==)>(chain: seq<Header<S>>, header: Header<S>, answer: Answer): (after: seq<Header<S>>)
    requires |chain| > 0
    ensures |after| > 0
  {
    if answer.Imported? && IsChildOfTip(header, chain) then chain + [header] else chain
  }

  ghost function Roots<S>(chain: seq<Header<S>>): (states: seq<S>)
    ensures |states| == |chain|
  {
    seq(|chain|, i requires 0 <= i < |chain| => chain[i].root)
  }

  /** A commit that succeeds replaces the last state and nothing else; height and links survive
      every way a commit can end. */
  lemma CommitKeepsLinks<S>(chain: seq<Header<S>>, post: S, fault: Fault)
    requires Linked(chain)
    ensures Linked(Commit(chain, post, fault))
    ensures fault.NoFault? ==> Roots(Commit(chain, post, fault)) == Roots(chain)[|chain| - 1 := post]
    ensures fault.NoFault? ==> Tip(Commit(chain, post, fault)) == Tip(chain).(root := post)
  {
  }

  lemma ImportKeepsLinks<S>(chain: seq<Header<S>>, header: Header<S>, answer: Answer)
    requires Linked(chain)
    ensures Linked(ImportBest(chain, header, answer))
    ensures answer.Imported? && IsChildOfTip(header, chain)
            ==> Roots(ImportBest(chain, header, answer)) == Roots(chain) + [header.root]
  {
  }
}
