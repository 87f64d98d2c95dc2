/** Along a session whose evolves succeed, whatever the client answers, at most one collation is ever
    pending; so the parent captured before the enactment loop is the tip each enactment reads at.
 */
module OnePending {
  import opened Ledger
  import opened ParasStorage
  import opened Protocol
  import opened Runs
  import opened Enacting
  import opened Schedule
  import opened Sessions

  // ---- What holds before, between and after all calls ----

  /** Every pending collation is of a block built on the head the relay stores for its parachain, and
      proved on that head's state: the head its collator decodes. */
  ghost predicate OnParent(r: Relay)
    requires |r.chain| > 0
  {
    var heads := Tip(r.chain).root.heads;
    forall c :: c in r.collations ==>
      c.id in heads && c.block.header.parent == HashOf(heads[c.id]) && c.block.proof == heads[c.id].root
  }

  ghost predicate Orderly(w: World) {
    Wellformed(w) && |w.relay.collations| <= 1 && OnParent(w.relay)
  }

  ghost predicate AlwaysOrderly(w: World, actions: seq<Action>)
    requires Wellformed(w) && AllApply(w, actions)
    decreases |actions|
  {
    Orderly(w) && (actions == [] || AlwaysOrderly(Step(w, actions[0]).1, actions[1..]))
  }

  lemma {:induction false} AlwaysOrderlyJoins(w: World, front: seq<Action>, back: seq<Action>)
    requires Wellformed(w) && AllApply(w, front) && AllApply(w, back)
    requires AlwaysOrderly(w, front) && AlwaysOrderly(Run(w, front), back)
    ensures AlwaysOrderly(w, front + back) && Run(w, front + back) == Run(Run(w, front), back)
    decreases |front|
  {
    hide Step, Orderly;
    if front == [] {
      assert front + back == back;
    } else {
      assert (front + back)[0] == front[0] && (front + back)[1..] == front[1..] + back;
      AlwaysOrderlyJoins(Step(w, front[0]).1, front[1..], back);
    }
  }

  /** The history has grown by `n` enactments, each approving the very block whose head it enacted. */
  ghost predicate EnactsExactly(w: World, after: World, n: int) {
    && w.relay.enacted <= after.relay.enacted && |after.relay.enacted| == |w.relay.enacted| + n
    && forall k :: |w.relay.enacted| <= k < |after.relay.enacted| ==> Exact(after.relay.enacted[k])
  }

  ghost predicate Exact(e: Enactment) {
    e.approved == Some(e.collected) && e.candidate.paraHead == e.collected.header
  }

  lemma EnactsExactlyJoins(w: World, mid: World, after: World, m: int, n: int)
    requires EnactsExactly(w, mid, m) && EnactsExactly(mid, after, n)
    ensures EnactsExactly(w, after, m + n)
  {
    hide Exact;
    forall k | |w.relay.enacted| <= k < |after.relay.enacted| ensures Exact(after.relay.enacted[k]) {
      if k < |mid.relay.enacted| {
        assert after.relay.enacted[k] == mid.relay.enacted[k];
      }
    }
  }

  // ---- One round ----

  /** Nothing is under way on the relay chain; an approved block may be waiting anywhere. */
  ghost predicate Idle(w: World) {
    && Wellformed(w) && Aligned(w) && w.relay.next.None? && w.relay.collations == []
    && forall i :: 0 <= i < |w.slots| ==> w.slots[i].nextBlock.None?
  }

  ghost function CollectActions(w: World, i: nat, round: Round): seq<Action>
    requires Wellformed(w) && i < |w.paras|
  {
    [DoUpdateHead(w.paras[i].id, Tip(w.paras[i].chain), round.headFault),
     DoBuildRelay(round.firstBuild.other, round.firstBuild.digest, round.firstBuild.fails),
     DoBuildPara(i, round.paraBuild.post, round.paraBuild.digest, round.paraBuild.body, round.paraBuild.fails,
                 round.paraBuild.leaf),
     DoImportRelay(round.firstImport)]
  }

  ghost function EnactActions(i: nat, round: Round): seq<Action> {
    [DoBuildRelay(round.secondBuild.other, round.secondBuild.digest, round.secondBuild.fails),
     DoImportRelay(round.secondImport),
     DoImportPara(i, round.paraImport)]
  }

  /** The block of parachain `i` is collected, still in its cell, and nothing else is under way. */
  ghost predicate OneCollected(w: World, i: nat) {
    && Orderly(w) && Aligned(w) && i < |w.paras| && w.relay.next.None?
    && (forall j :: 0 <= j < |w.slots| && j != i ==> w.slots[j].nextBlock.None?)
    && |w.relay.collations| == 1 && w.relay.collations[0].id == w.paras[i].id
    && w.slots[i].nextBlock == Some(w.relay.collations[0].block)
  }

  lemma ImportCollectsOne(r: Relay, slots: seq<Slot>, env: ImportEnv, i: nat)
    requires |r.chain| > 0 && OnlySlot(r, slots, i) && r.collations == [] && ImportRelay(r, slots, env).0.Ok?
    requires slots[r.registered[i].slot].nextBlock.Some?
    ensures r.next.Some?
    ensures var (_, after, slots') := ImportRelay(r, slots, env);
            var block := slots[r.registered[i].slot].nextBlock.value;
            && slots' == slots && after.collations == [Collation(r.registered[i].id, block, r.next.value)]
            && after.chain == ImportBest(r.chain, r.next.value, env.answer) && after.enacted == r.enacted
  {
    hide CollectFrom;
    ImportLeavesPending(r, slots, env);
    PendingOfOne(r.registered, slots, r.next.value, |r.registered|, i);
  }

  lemma ImportEnactsOne(r: Relay, slots: seq<Slot>, env: ImportEnv, i: nat)
    requires |r.chain| > 0 && OnlySlot(r, slots, i) && |r.collations| == 1 && r.collations[0].id == r.registered[i].id
    requires ImportRelay(r, slots, env).0.Ok?
    ensures var (_, after, slots') := ImportRelay(r, slots, env); var k := r.registered[i].slot;
            && slots' == slots[k := Approve(slots[k]).1] && after.collations == []
            && |after.enacted| == |r.enacted| + 1 && r.enacted <= after.enacted
            && var e := after.enacted[|r.enacted|];
               && e.collected == r.collations[0].block && e.candidate.paraHead == e.collected.header
               && e.approved == slots[k].nextBlock
  {
    hide CollectFrom, EnactOne;
    var header, c := r.next.value, r.collations[0];
    var imported := r.(next := None, chain := ImportBest(r.chain, header, env.answer), imports := r.imports + [header]);
    SlotForEntry(r.registered, i);
    assert r.collations == [c];
    EnactOneOk(imported, slots, c, Tip(imported.chain), EnactEnvAt(env, 0));
    var (_, one, slots1) := EnactOne(imported, slots, c, Tip(imported.chain), EnactEnvAt(env, 0));
    assert EnactFrom(imported, slots, [c], 0, Tip(imported.chain), env) == (Ok, one.(collations := []), slots1);
    ImportLeavesPending(r, slots, env);
    PendingOfOne(r.registered, slots1, header, |r.registered|, i);
  }

  lemma OneMore(w: World, a: Action, rest: seq<Action>)
    requires Orderly(w) && Applies(w, a) && AllApply(w, rest)
    requires AlwaysOrderly(Step(w, a).1, rest)
    ensures AllApply(w, [a] + rest) && AlwaysOrderly(w, [a] + rest) && Run(w, [a] + rest) == Run(Step(w, a).1, rest)
  {
    hide Step, OnParent;
    assert ([a] + rest)[1..] == rest;
  }

  lemma NoMore(w: World)
    requires Orderly(w)
    ensures AlwaysOrderly(w, []) && Run(w, []) == w
  {
  }

  /** Just before the first relay import of a round: nothing pending, the one block waiting built on the
      head the relay block will store. */
  ghost predicate ReadyToCollect(w: World, i: nat, p: Para)
    requires |p.chain| > 0
  {
    && Wellformed(w) && Aligned(w) && i < |w.paras| && w.paras[i].id == p.id
    && OnlySlot(w.relay, w.slots, i) && w.relay.collations == [] && w.relay.next.Some?
    && w.slots[i].nextBlock.Some?
    && w.slots[i].nextBlock.value.header.parent == HashOf(Tip(p.chain))
    && w.slots[i].nextBlock.value.proof == Tip(p.chain).root
    && StoresTip(Tip(w.relay.chain).root.heads, p) && StoresTip(w.relay.next.value.root.heads, p)
  }

  ghost predicate StoresTip(heads: map<Id, HeadData>, p: Para)
    requires |p.chain| > 0
  {
    p.id in heads && heads[p.id] == Tip(p.chain)
  }

  lemma CollectSteps(w: World, i: nat, round: Round)
    requires Idle(w) && i < |w.paras| && CollectPhase(w, i, round).0.Ok?
    ensures var actions := CollectActions(w, i, round);
            var w1 := Step(w, actions[0]).1; var w2 := Step(w1, actions[1]).1; var w3 := Step(w2, actions[2]).1;
            && w1.relay.collations == [] && w2.relay.collations == [] && w3.relay.enacted == w.relay.enacted
            && ReadyToCollect(w3, i, w.paras[i]) && |w3.paras| == |w.paras|
            && Step(w3, actions[3]).0.Ok? && CollectPhase(w, i, round) == Step(w3, actions[3])
  {
    hide ImportRelay;
  }

  lemma CollectedOne(w: World, env: ImportEnv, i: nat, p: Para)
    requires |p.chain| > 0 && ReadyToCollect(w, i, p) && Step(w, DoImportRelay(env)).0.Ok?
    ensures var after := Step(w, DoImportRelay(env)).1;
            OneCollected(after, i) && after.paras[i].id == p.id && after.relay.enacted == w.relay.enacted
            && StoresTip(Tip(after.relay.chain).root.heads, p)
  {
    hide ImportRelay;
    assert w.relay.registered[i] == Entry(w.paras[i].id, i);
    ImportCollectsOne(w.relay, w.slots, env, i);
    forall j | 0 <= j < |w.slots| && j != i ensures w.slots[j].nextBlock.None? {
      assert w.relay.registered[j] == Entry(w.paras[j].id, j);
    }
  }

  lemma EmptyIsOrderly(w: World)
    requires Wellformed(w) && w.relay.collations == []
    ensures Orderly(w)
  {
  }

  lemma CollectRun(w: World, i: nat, round: Round)
    requires Idle(w) && i < |w.paras| && CollectPhase(w, i, round).0.Ok?
    ensures var actions := CollectActions(w, i, round); var after := CollectPhase(w, i, round).1;
            && AllApply(w, actions) && AlwaysOrderly(w, actions) && Run(w, actions) == after
            && OneCollected(after, i) && after.paras[i].id == w.paras[i].id && after.relay.enacted == w.relay.enacted
            && StoresTip(Tip(after.relay.chain).root.heads, w.paras[i])
  {
    hide ImportRelay, CollectPhase, Step, Orderly, StoresTip;
    CollectSteps(w, i, round);
    var actions := CollectActions(w, i, round);
    var w1 := Step(w, actions[0]).1;
    var w2 := Step(w1, actions[1]).1;
    var w3 := Step(w2, actions[2]).1;
    var w4 := Step(w3, actions[3]).1;
    CollectedOne(w3, round.firstImport, i, w.paras[i]);
    EmptyIsOrderly(w);
    EmptyIsOrderly(w1);
    EmptyIsOrderly(w2);
    EmptyIsOrderly(w3);
    NoMore(w4);
    OneMore(w3, actions[3], []);
    OneMore(w2, actions[2], [actions[3]] + []);
    OneMore(w1, actions[1], [actions[2]] + ([actions[3]] + []));
    OneMore(w, actions[0], [actions[1]] + ([actions[2]] + ([actions[3]] + [])));
    assert actions == [actions[0]] + ([actions[1]] + ([actions[2]] + ([actions[3]] + [])));
  }

  /** Whenever the collecting half of a round succeeds, on any backend, with any answers and whatever the
      other parachains are: the head the collator decodes is the header its block was built on. */
  lemma CollectsOnParentAlways(w: World, i: nat, round: Round)
    requires Idle(w) && i < |w.paras| && CollectPhase(w, i, round).0.Ok?
    ensures CollectsOnParent(w, CollectPhase(w, i, round).1, i)
  {
    hide CollectPhase;
    CollectRun(w, i, round);
    var after := CollectPhase(w, i, round).1;
    assert after.relay.collations[0] in after.relay.collations;
  }

  lemma EnactSteps(w: World, i: nat, round: Round)
    requires OneCollected(w, i) && EnactPhase(w, i, round).0.Ok?
    ensures var actions := EnactActions(i, round);
            var w1 := Step(w, actions[0]).1; var w2 := Step(w1, actions[1]).1; var w3 := Step(w2, actions[2]).1;
            && Orderly(w1) && Orderly(w2) && Idle(w3) && EnactsExactly(w, w3, 1) && w3 == EnactPhase(w, i, round).1
  {
    hide ImportRelay;
    var actions := EnactActions(i, round);
    var w1 := Step(w, actions[0]).1;
    assert w.relay.registered[i] == Entry(w.paras[i].id, i);
    ImportEnactsOne(w1.relay, w1.slots, round.secondImport, i);
  }

  lemma EnactRun(w: World, i: nat, round: Round)
    requires OneCollected(w, i) && EnactPhase(w, i, round).0.Ok?
    ensures var actions := EnactActions(i, round); var after := EnactPhase(w, i, round).1;
            && AllApply(w, actions) && AlwaysOrderly(w, actions) && Run(w, actions) == after
            && Idle(after) && EnactsExactly(w, after, 1)
  {
    hide ImportRelay, EnactPhase, Step, OnParent, EnactsExactly;
    EnactSteps(w, i, round);
    var actions := EnactActions(i, round);
    var w1 := Step(w, actions[0]).1;
    var w2 := Step(w1, actions[1]).1;
    var w3 := Step(w2, actions[2]).1;
    EmptyIsOrderly(w3);
    NoMore(w3);
    OneMore(w2, actions[2], []);
    OneMore(w1, actions[1], [actions[2]] + []);
    OneMore(w, actions[0], [actions[1]] + ([actions[2]] + []));
    assert actions == [actions[0]] + ([actions[1]] + ([actions[2]] + []));
  }

  // ---- One evolve, one session ----

  ghost function RoundActions(w: World, i: nat, round: Round): seq<Action>
    requires Wellformed(w) && i < |w.paras|
  {
    CollectActions(w, i, round) + EnactActions(i, round)
  }

  lemma RoundRun(w: World, i: nat, round: Round)
    requires Idle(w) && i < |w.paras| && EvolvePara(w, i, round).0.Ok?
    ensures var actions := RoundActions(w, i, round); var after := EvolvePara(w, i, round).1;
            && AllApply(w, actions) && AlwaysOrderly(w, actions) && Run(w, actions) == after
            && Idle(after) && EnactsExactly(w, after, 1)
  {
    hide CollectPhase, EnactPhase, CollectActions, EnactActions, AlwaysOrderly, Run, OneCollected, StoresTip, Exact;
    CollectRun(w, i, round);
    EnactRun(CollectPhase(w, i, round).1, i, round);
    AlwaysOrderlyJoins(w, CollectActions(w, i, round), EnactActions(i, round));
  }

  ghost function EvolveActions(w: World, i: nat, rounds: seq<Round>): seq<Action>
    requires Wellformed(w) && i <= |w.paras| == |rounds|
    decreases |w.paras| - i
  {
    if i == |w.paras| then []
    else RoundActions(w, i, rounds[i]) + EvolveActions(EvolvePara(w, i, rounds[i]).1, i + 1, rounds)
  }

  lemma {:induction false} EvolveRun(w: World, i: nat, rounds: seq<Round>)
    requires Idle(w) && i <= |w.paras| == |rounds| && EvolveFrom(w, i, rounds).0.Ok?
    ensures var actions := EvolveActions(w, i, rounds);
            && AllApply(w, actions) && AlwaysOrderly(w, actions) && Run(w, actions) == EvolveFrom(w, i, rounds).1
            && Idle(EvolveFrom(w, i, rounds).1) && EnactsExactly(w, EvolveFrom(w, i, rounds).1, |w.paras| - i)
    decreases |w.paras| - i
  {
    hide EvolvePara, RoundActions, Exact;
    if i == |w.paras| {
      NoMore(w);
    } else {
      RoundRun(w, i, rounds[i]);
      var next := EvolvePara(w, i, rounds[i]).1;
      EvolveRun(next, i + 1, rounds);
      AlwaysOrderlyJoins(w, RoundActions(w, i, rounds[i]), EvolveActions(next, i + 1, rounds));
      EnactsExactlyJoins(w, next, EvolveFrom(next, i + 1, rounds).1, 1, |w.paras| - i - 1);
    }
  }

  ghost function EventActions(w: World, event: Event): seq<Action>
    requires Wellformed(w) && Fits(|w.paras|, event)
  {
    match event
    case Evolve(rounds) => EvolveActions(w, 0, rounds)
    case UserMutatesRelay(storage) => [DoMutateRelay(storage, NoFault)]
    case UserMutatesPara(i, post) => [DoMutatePara(i, post, NoFault)]
  }

  /** An evolve of `n` parachains enacts `n` blocks, anything else none. */
  ghost function Enactments(n: nat, event: Event): nat {
    if event.Evolve? then n else 0
  }

  lemma EventRun(w: World, event: Event)
    requires Idle(w) && Fits(|w.paras|, event) && Happen(w, event).0.Ok?
    ensures var actions := EventActions(w, event); var after := Happen(w, event).1;
            && AllApply(w, actions) && AlwaysOrderly(w, actions) && Run(w, actions) == after
            && Idle(after) && EnactsExactly(w, after, Enactments(|w.paras|, event))
  {
    hide EvolveFrom, EvolveActions;
    if event.Evolve? {
      EvolveRun(w, 0, event.rounds);
    } else {
      var action := EventActions(w, event)[0];
      EmptyIsOrderly(w);
      EmptyIsOrderly(Happen(w, event).1);
      NoMore(Happen(w, event).1);
      OneMore(w, action, []);
      assert EventActions(w, event) == [action] + [];
    }
  }

  /** Every call a session makes, in order. */
  ghost function SessionActions(w: World, events: seq<Event>): seq<Action>
    requires Wellformed(w) && AllFit(|w.paras|, events)
    decreases |events|
  {
    if events == [] then [] else EventActions(w, events[0]) + SessionActions(Happen(w, events[0]).1, events[1..])
  }

  ghost function SessionEnactments(n: nat, events: seq<Event>): nat {
    if events == [] then 0 else Enactments(n, events[0]) + SessionEnactments(n, events[1..])
  }

  lemma {:induction false} EnactmentsAreProduct(n: nat, events: seq<Event>)
    ensures SessionEnactments(n, events) == n * Evolves(events)
  {
    if events != [] {
      EnactmentsAreProduct(n, events[1..]);
    }
  }

  lemma {:induction false} SessionRun(w: World, events: seq<Event>)
    requires Idle(w) && AllFit(|w.paras|, events) && Session(w, events).0.Ok?
    ensures var actions := SessionActions(w, events); var after := Session(w, events).1;
            && AllApply(w, actions) && AlwaysOrderly(w, actions) && Run(w, actions) == after
            && Idle(after) && EnactsExactly(w, after, SessionEnactments(|w.paras|, events))
    decreases |events|
  {
    hide Happen, EventActions, Exact, Enactments;
    if events == [] {
      NoMore(w);
    } else {
      EventRun(w, events[0]);
      var next := Happen(w, events[0]).1;
      SessionRun(next, events[1..]);
      AlwaysOrderlyJoins(w, EventActions(w, events[0]), SessionActions(next, events[1..]));
      EnactsExactlyJoins(w, next, Session(next, events[1..]).1, Enactments(|w.paras|, events[0]),
                         SessionEnactments(|w.paras|, events[1..]));
    }
  }

  /** A session whose evolves succeed, whatever the backend and the client's answers, is a run of calls
      before, between and after which at most one collation is pending and every pending one is of a block
      built on the head its collator decodes. */
  lemma SessionKeepsOnePending(w: World, events: seq<Event>)
    requires Idle(w) && AllFit(|w.paras|, events) && Session(w, events).0.Ok?
    ensures var actions := SessionActions(w, events);
            && AllApply(w, actions) && AlwaysOrderly(w, actions) && Run(w, actions) == Session(w, events).1
            && Idle(Session(w, events).1)
  {
    hide Session, AlwaysOrderly, EnactsExactly;
    SessionRun(w, events);
  }

  /** And its k evolves of n parachains enact nk blocks, each time approving the enacted block. */
  lemma SessionApprovesExactly(w: World, events: seq<Event>)
    requires Idle(w) && AllFit(|w.paras|, events) && Session(w, events).0.Ok?
    ensures EnactsExactly(w, Session(w, events).1, |w.paras| * Evolves(events))
  {
    hide Session, AlwaysOrderly, EnactsExactly;
    SessionRun(w, events);
    EnactmentsAreProduct(|w.paras|, events);
  }

  // ---- When two can be pending ----

  ghost predicate Holds(registered: seq<Entry>, slots: seq<Slot>, j: nat)
    requires Wired(registered, |slots|) && j < |registered|
  {
    slots[registered[j].slot].nextBlock.Some?
  }

  lemma {:induction false} PendingUpToOne(registered: seq<Entry>, slots: seq<Slot>, generationParent: RelayHeader,
                                          n: nat)
    requires n <= |registered| && Wired(registered, |slots|)
    ensures |Pending(registered, slots, generationParent, n)| == 0
            <==> forall j :: 0 <= j < n ==> !Holds(registered, slots, j)
    ensures |Pending(registered, slots, generationParent, n)| <= 1
            <==> forall j, k :: 0 <= j < k < n ==> !Holds(registered, slots, j) || !Holds(registered, slots, k)
  {
    if n > 0 {
      PendingUpToOne(registered, slots, generationParent, n - 1);
      var last := if Holds(registered, slots, n - 1) then 1 else 0;
      assert |Pending(registered, slots, generationParent, n)|
          == |Pending(registered, slots, generationParent, n - 1)| + last;
    }
  }

  /** The exact condition, sessions or not: after a successful relay import at most one collation is
      pending if and only if at most one registered collator's cell holds a block. */
  lemma AtMostOnePendingIff(r: Relay, slots: seq<Slot>, env: ImportEnv)
    requires |r.chain| > 0 && Wired(r.registered, |slots|) && DistinctIds(r.registered)
    requires ImportRelay(r, slots, env).0.Ok?
    ensures var (_, after, slots') := ImportRelay(r, slots, env);
            |after.collations| <= 1 <==>
            forall j, k :: 0 <= j < k < |r.registered| ==>
              !Holds(r.registered, slots', j) || !Holds(r.registered, slots', k)
  {
    hide ImportRelay, Pending;
    ImportLeavesPending(r, slots, env);
    PendingUpToOne(r.registered, ImportRelay(r, slots, env).2, r.next.value, |r.registered|);
  }

  // ---- What that means for the captured parent ----

  /** The loop with the parent taken anew for every collation. */
  ghost function EnactRereading(r: Relay, slots: seq<Slot>, todo: seq<Collation>, k: nat, env: ImportEnv)
    : (Status, Relay, seq<Slot>)
    requires |r.chain| > 0 && Wired(r.registered, |slots|) && k <= |todo|
    decreases |todo| - k
  {
    if k == |todo| then (Ok, r.(collations := []), slots)
    else
      var (status, r', slots') := EnactOne(r, slots, todo[k], Tip(r.chain), EnactEnvAt(env, k));
      if !status.Ok? then (status, r', slots') else EnactRereading(r', slots', todo, k + 1, env)
  }

  /** With at most one collation pending every read of the loop is made at the current tip. */
  lemma OneReadsAtTheTip(r: Relay, slots: seq<Slot>, env: ImportEnv)
    requires |r.chain| > 0 && Wired(r.registered, |slots|) && |r.collations| <= 1
    ensures ForceEnact(r, slots, env) == EnactRereading(r, slots, r.collations, 0, env)
  {
    hide EnactOne;
    if r.collations != [] {
      var (_, r1, slots1) := EnactOne(r, slots, r.collations[0], Tip(r.chain), EnactEnvAt(env, 0));
      assert EnactFrom(r1, slots1, r.collations, 1, Tip(r.chain), env)
          == EnactRereading(r1, slots1, r.collations, 1, env);
    }
  }
}
