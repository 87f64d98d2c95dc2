/** The collation protocol as functions on values: what every operation of the relay-chain builder,
    the collators and the parachain builders does to the state they share, error paths included.

    The environment answers through the parameters: what a block execution leaves in the storage the
    builders do not look at, what the client answers to an import, where the backend fails.
 */
module Protocol {
  import opened Ledger
  import opened Externalities
  import opened ParasStorage

  type RelayHeader = Header<RelayStorage>

  /** A parachain block with the state its proof was recorded on.  `serial` is a history variable: it
      numbers the blocks one builder has built and no operation looks at it. */
  datatype Built = Built(header: HeadData, body: Body, proof: Kv, serial: nat)

  /** The storage a parachain builder shares with its collators; `approved` is a history variable. */
  datatype Slot = Slot(nextBlock: Option<Built>, nextImport: Option<Built>, approved: set<nat>)

  datatype Collation = Collation(id: Id, block: Built, generationParent: RelayHeader)

  datatype Entry = Entry(id: Id, slot: nat)

  /** History of one forced enactment: the candidate, the block collected, the block `approve` moved. */
  datatype Enactment = Enactment(candidate: Candidate, collected: Built, approved: Option<Built>)

  /** What stays fixed about a relay-chain node: whether its backend is an archive, and which contents of
      the storage items outside the paras pallet, the code among them, make usable code. */
  datatype Node = Node(archive: bool, runtime: Kv -> bool)

  datatype Relay = Relay(
    node: Node,
    chain: seq<RelayHeader>,
    next: Option<RelayHeader>,
    imports: seq<RelayHeader>,
    registered: seq<Entry>,
    collations: seq<Collation>,
    enacted: seq<Enactment>)

  datatype Para = Para(id: Id, chain: seq<HeadData>, imports: seq<Built>, built: nat)

  datatype Status =
    | Ok
    | Panicked
    | CoreBuilderFailed
    | NextBlockNotFound
    | ValidationDataRetrieval
    | ValidationDataNotFound
    | CollationFailed
    | EnactmentFailed(error: EnactError)
    | ParachainNotOnboarded
    | JudgeFailed

  datatype EnactEnv = EnactEnv(readFails: bool, fault: Fault)
  datatype CollectEnv = CollectEnv(readFails: bool, infoFails: bool)
  datatype ImportEnv = ImportEnv(answer: Answer, enact: seq<EnactEnv>, collect: seq<CollectEnv>)

  ghost predicate Wired(registered: seq<Entry>, slots: nat) {
    forall j :: 0 <= j < |registered| ==> registered[j].slot < slots
  }

  // ---- Relay chain: mutation, onboarding, building ----

  /** A commit finds usable code. */
  predicate Coded(r: Relay)
    requires |r.chain| > 0
  {
    r.node.runtime(VersionRoot(r.chain).other)
  }

  /** A commit without usable code, or of a closure that leaves its storage transactions unbalanced,
      fails once the tip is off. */
  function Ending(completes: bool, fault: Fault): Fault {
    if completes || fault.BeforeRevert? then fault else AfterRevert
  }

  function Landing<S, R>(outcome: Executed<S, R>, state: S): S {
    if outcome.Finished? then outcome.post else state
  }

  function MutateRelay(r: Relay, post: RelayStorage, fault: Fault): (Status, Relay)
    requires |r.chain| > 0
  {
    var ending := Ending(Coded(r), fault);
    if r.next.Some? then (Panicked, r)
    else (if ending.NoFault? then Ok else CoreBuilderFailed, r.(chain := Commit(r.chain, post, ending)))
  }

  function UpdateParaHead(r: Relay, id: Id, head: HeadData, fault: Fault): (Status, Relay)
    requires |r.chain| > 0
  {
    var state := Tip(r.chain).root;
    MutateRelay(r, state.(heads := state.heads[id := head]), fault)
  }

  function OnboardPara(r: Relay, entry: Entry, head: HeadData, code: Code, hash: Code -> CodeHash,
                       fault: Fault): (Status, Relay)
    requires |r.chain| > 0
  {
    var (status, after) := MutateRelay(r, Onboard(Tip(r.chain).root, entry.id, head, code, hash), fault);
    (status, if status.Ok? then after.(registered := r.registered + [entry]) else after)
  }

  /** Runtime contract: executing a block sets the block number and leaves the items of the paras
      pallet alone. */
  function Execute(state: RelayStorage, number: nat, other: Kv): RelayStorage {
    state.(number := number, other := other)
  }

  function BuildRelay(r: Relay, other: Kv, digest: nat, fails: bool): (Status, Relay)
    requires |r.chain| > 0
  {
    if r.next.Some? then (Panicked, r)
    else if fails then (CoreBuilderFailed, r)
    else (Ok, r.(next := Some(Child(r.chain, Execute(Tip(r.chain).root, |r.chain|, other), digest))))
  }

  // ---- Collators ----

  datatype Collated = NoBlock | Made(block: Built) | Failed

  /** The compact proof exists only over the state the recorded proof was taken on. */
  function CreateCollation(slot: Slot, parentHead: HeadData, infoFails: bool): Collated {
    if slot.nextBlock.None? then NoBlock
    else if parentHead.root != slot.nextBlock.value.proof || infoFails then Failed
    else Made(slot.nextBlock.value)
  }

  function Approve(slot: Slot): (Status, Slot) {
    if slot.nextBlock.None? then (JudgeFailed, slot)
    else (Ok, Slot(None, slot.nextBlock, slot.approved + {slot.nextBlock.value.serial}))
  }

  function Reject(slot: Slot): Slot {
    slot.(nextBlock := None)
  }

  // ---- Relay chain: enacting and collecting ----

  function EnactEnvAt(env: ImportEnv, k: nat): EnactEnv {
    if k < |env.enact| then env.enact[k] else EnactEnv(false, NoFault)
  }

  function CollectEnvAt(env: ImportEnv, j: nat): CollectEnv {
    if j < |env.collect| then env.collect[j] else CollectEnv(false, false)
  }

  function FindEntry(registered: seq<Entry>, id: Id): (j: Option<nat>)
    ensures j.Some? ==> j.value < |registered| && registered[j.value].id == id
    ensures j.None? ==> forall k :: 0 <= k < |registered| ==> registered[k].id != id
    ensures j.Some? ==> forall k :: 0 <= k < j.value ==> registered[k].id != id
  {
    FindEntryFrom(registered, id, 0)
  }

  function FindEntryFrom(registered: seq<Entry>, id: Id, from: nat): (j: Option<nat>)
    requires from <= |registered|
    ensures j.Some? ==> from <= j.value < |registered| && registered[j.value].id == id
    ensures j.None? ==> forall k :: from <= k < |registered| ==> registered[k].id != id
    ensures j.Some? ==> forall k :: from <= k < j.value ==> registered[k].id != id
    decreases |registered| - from
  {
    if from == |registered| then None
    else if registered[from].id == id then Some(from)
    else FindEntryFrom(registered, id, from + 1)
  }

  /** The state of a block that was the tip, read from outside a commit: an archive keeps it for good,
      any other backend while the block is still the tip. */
  function Readable(r: Relay, parent: RelayHeader): Option<RelayStorage>
    requires |r.chain| > 0
  {
    if r.node.archive || Tip(r.chain) == parent then Some(parent.root) else None
  }

  /** The same from inside a commit, where the tip, unless it is genesis, has just been reverted. */
  function ReadableInside(r: Relay, parent: RelayHeader): Option<RelayStorage>
    requires |r.chain| > 0
  {
    if |r.chain| == 1 || r.node.archive then Readable(r, parent) else None
  }

  /** One commit of the enactment closure; its writes are kept even when its own value is an error.  The
      validation data is read before the commit, the code hash inside it. */
  function EnactCommit(r: Relay, c: Collation, parent: RelayHeader, env: EnactEnv): (Status, Relay, Option<Candidate>)
    requires |r.chain| > 0
  {
    var data := Readable(r, parent);
    if env.readFails || data.None? then (ValidationDataRetrieval, r, None)
    else if c.id !in data.value.heads then (ValidationDataNotFound, r, None)
    else if r.next.Some? then (Panicked, r, None)
    else
      var ending := Ending(Coded(r), env.fault);
      if !ending.NoFault? then (CoreBuilderFailed, r.(chain := Commit(r.chain, Tip(r.chain).root, ending)), None)
      else
        var (error, post, candidate) := EnactClosure(Tip(r.chain).root, ReadableInside(r, parent), c.id, c.block.header,
                                                     parent.number, c.generationParent.number);
        (if error.Some? then EnactmentFailed(error.value) else Ok, r.(chain := RewriteTip(r.chain, post)), candidate)
  }

  function JudgeEnacted(r: Relay, slots: seq<Slot>, c: Collation, candidate: Candidate): (Status, Relay, seq<Slot>)
    requires Wired(r.registered, |slots|)
  {
    var j := FindEntry(r.registered, c.id);
    if j.None? then (ParachainNotOnboarded, r, slots)
    else
      var k := r.registered[j.value].slot;
      var (status, slot) := Approve(slots[k]);
      (status, r.(enacted := r.enacted + [Enactment(candidate, c.block, slots[k].nextBlock)]), slots[k := slot])
  }

  /** What enactment and collection never touch. */
  ghost predicate Framed(r: Relay, slots: seq<Slot>, after: Relay, slots': seq<Slot>) {
    && |after.chain| > 0 && after.next == r.next && after.imports == r.imports
    && after.registered == r.registered && after.node == r.node && |slots'| == |slots|
  }

  function EnactOne(r: Relay, slots: seq<Slot>, c: Collation, parent: RelayHeader, env: EnactEnv)
    : (result: (Status, Relay, seq<Slot>))
    requires |r.chain| > 0 && Wired(r.registered, |slots|)
    ensures Framed(r, slots, result.1, result.2) && result.1.collations == r.collations
  {
    var (status, after, candidate) := EnactCommit(r, c, parent, env);
    if !status.Ok? || candidate.None? then (status, after, slots)
    else JudgeEnacted(after, slots, c, candidate.value)
  }

  /** Enact the collations from position `k` on.  `parent` is captured once, before the loop; an error
      leaves the list of collations as it is. */
  function EnactFrom(r: Relay, slots: seq<Slot>, todo: seq<Collation>, k: nat, parent: RelayHeader, env: ImportEnv)
    : (result: (Status, Relay, seq<Slot>))
    requires |r.chain| > 0 && Wired(r.registered, |slots|) && k <= |todo|
    ensures Framed(r, slots, result.1, result.2)
    ensures result.1.collations == if result.0.Ok? then [] else r.collations
    decreases |todo| - k
  {
    if k == |todo| then (Ok, r.(collations := []), slots)
    else
      var (status, r', slots') := EnactOne(r, slots, todo[k], parent, EnactEnvAt(env, k));
      if !status.Ok? then (status, r', slots')
      else EnactFrom(r', slots', todo, k + 1, parent, env)
  }

  function ForceEnact(r: Relay, slots: seq<Slot>, env: ImportEnv): (result: (Status, Relay, seq<Slot>))
    requires |r.chain| > 0 && Wired(r.registered, |slots|)
    ensures Framed(r, slots, result.1, result.2)
  {
    EnactFrom(r, slots, r.collations, 0, Tip(r.chain), env)
  }

  function CollectOne(r: Relay, slots: seq<Slot>, entry: Entry, generationParent: RelayHeader,
                      env: CollectEnv): (Status, Relay)
    requires |r.chain| > 0 && entry.slot < |slots|
  {
    var heads := Tip(r.chain).root.heads;
    if env.readFails then (ValidationDataRetrieval, r)
    else if entry.id !in heads then (ValidationDataNotFound, r)
    else
      match CreateCollation(slots[entry.slot], heads[entry.id], env.infoFails)
      case NoBlock => (Ok, r)
      case Failed => (CollationFailed, r)
      case Made(block) =>
        if HasCollation(r.collations, entry.id) then (Ok, r)
        else (Ok, r.(collations := r.collations + [Collation(entry.id, block, generationParent)]))
  }

  predicate HasCollation(collations: seq<Collation>, id: Id) {
    exists c :: c in collations && c.id == id
  }

  function CollectFrom(r: Relay, slots: seq<Slot>, j: nat, generationParent: RelayHeader, env: ImportEnv)
    : (result: (Status, Relay))
    requires |r.chain| > 0 && Wired(r.registered, |slots|) && j <= |r.registered|
    ensures result.1 == r.(collations := result.1.collations)
    decreases |r.registered| - j
  {
    if j == |r.registered| then (Ok, r)
    else
      var (status, r') := CollectOne(r, slots, r.registered[j], generationParent, CollectEnvAt(env, j));
      if !status.Ok? then (status, r')
      else CollectFrom(r', slots, j + 1, generationParent, env)
  }

  function ImportRelay(r: Relay, slots: seq<Slot>, env: ImportEnv): (result: (Status, Relay, seq<Slot>))
    requires |r.chain| > 0 && Wired(r.registered, |slots|)
    ensures |result.1.chain| > 0 && result.1.registered == r.registered && result.1.node == r.node
            && |result.2| == |slots|
    ensures result.1.next.None?
  {
    if r.next.None? then (NextBlockNotFound, r, slots)
    else
      var header := r.next.value;
      var taken := r.(next := None);
      if env.answer.ImportFailed? then (CoreBuilderFailed, taken, slots)
      else
        var imported := taken.(chain := ImportBest(r.chain, header, env.answer), imports := r.imports + [header]);
        var (status, enacted, slots') := ForceEnact(imported, slots, env);
        if !status.Ok? then (status, enacted, slots')
        else
          var (status', collected) := CollectFrom(enacted, slots', 0, header, env);
          (status', collected, slots')
  }

  // ---- Parachain builders ----

  /** Build on the latest block, import it as a leaf, put it in the slot. */
  function BuildPara(p: Para, slot: Slot, post: Kv, digest: nat, body: Body, fails: bool, leaf: Answer)
    : (Status, Para, Slot)
    requires |p.chain| > 0
  {
    if fails || leaf.ImportFailed? then (CoreBuilderFailed, p, slot)
    else
      var block := Built(Child(p.chain, post, digest), body, Tip(p.chain).root, p.built);
      (Ok, p.(built := p.built + 1), slot.(nextBlock := Some(block)))
  }

  function ImportPara(p: Para, slot: Slot, answer: Answer): (Status, Para, Slot)
    requires |p.chain| > 0
  {
    if slot.nextImport.None? then (Ok, p, slot)
    else if answer.ImportFailed? then (CoreBuilderFailed, p, slot)
    else
      var block := slot.nextImport.value;
      (Ok, p.(chain := ImportBest(p.chain, block.header, answer), imports := p.imports + [block]),
          slot.(nextImport := None))
  }

  function MutatePara(p: Para, post: Kv, fault: Fault): (Status, Para)
    requires |p.chain| > 0
  {
    (if fault.NoFault? then Ok else CoreBuilderFailed, p.(chain := Commit(p.chain, post, fault)))
  }
}
