/** The registry of time providers that every thread shares, and how its operations interleave.
 */
module Instances {
  import opened Ledger
  import opened Time

  /** `creating` holds, for each thread between the two halves of a creation, the id it drew; `drawn`,
      the number of ids drawn ever, is a history variable. */
  datatype Registry = Registry(counter: nat, instances: map<InstanceId, Provider>, creating: map<nat, InstanceId>,
      drawn: nat)

  datatype Reply = Done | ClockFailed | InstanceNotFound(id: InstanceId)

  /** Without a start the wall clock supplies one; a clock before the epoch supplies none. */
  function StartOf(start: Option<nat>, clock: Option<nat>): Option<nat> {
    if start.Some? then start else clock
  }

  datatype Action =
    | DrawId(thread: nat)
    | FinishCreate(thread: nat, delta: nat, start: Option<nat>, clock: Option<nat>)
    | ForceNew(id: InstanceId, delta: nat, start: Option<nat>, clock: Option<nat>)
    | UpdateTime(id: InstanceId)

  predicate Enabled(r: Registry, a: Action) {
    match a
    case DrawId(thread) => thread !in r.creating
    case FinishCreate(thread, _, _, _) => thread in r.creating
    case ForceNew(_, _, _, _) => true
    case UpdateTime(_) => true
  }

  function Step(r: Registry, a: Action): (Reply, Registry)
    requires Enabled(r, a)
  {
    match a
    case DrawId(thread) =>
      (Done, r.(counter := (r.counter + 1) % COUNTER_RANGE, creating := r.creating[thread := r.counter],
          drawn := r.drawn + 1))
    case FinishCreate(thread, delta, start, clock) =>
      var id, idle := r.creating[thread], r.(creating := r.creating - {thread});
      var from := StartOf(start, clock);
      if from.None? then (ClockFailed, idle)
      else (Done, idle.(instances := r.instances[id := Provider(id, from.value, delta, 0)]))
    case ForceNew(id, delta, start, clock) =>
      var from := StartOf(start, clock);
      if from.None? then (ClockFailed, r)
      else if id !in r.instances then (InstanceNotFound(id), r)
      else (Done, r.(instances := r.instances[id := Provider(id, from.value, delta, 0)]))
    case UpdateTime(id) =>
      if id !in r.instances then (InstanceNotFound(id), r)
      else (Done, r.(instances := r.instances[id := Later(r.instances[id], 1)]))
  }

  ghost predicate Runs(r: Registry, actions: seq<Action>)
    decreases |actions|
  {
    actions == [] || (Enabled(r, actions[0]) && Runs(Step(r, actions[0]).1, actions[1..]))
  }

  ghost function After(r: Registry, actions: seq<Action>): Registry
    requires Runs(r, actions)
    decreases |actions|
  {
    if actions == [] then r else After(Step(r, actions[0]).1, actions[1..])
  }

  // ---- Ids ----

  ghost function Draws(actions: seq<Action>): nat {
    if actions == [] then 0 else (if actions[0].DrawId? then 1 else 0) + Draws(actions[1..])
  }

  /** Short of the counter's wrap-around: every id drawn is below the counter, in use by one thread or
      one instance, and every instance is filed under its own id. */
  ghost predicate Distinct(r: Registry) {
    && r.drawn <= COUNTER_RANGE && r.counter == r.drawn % COUNTER_RANGE
    && (forall id :: id in r.instances ==> id < r.drawn && r.instances[id].id == id)
    && (forall t :: t in r.creating ==> r.creating[t] < r.drawn && r.creating[t] !in r.instances)
    && (forall t, u :: t in r.creating && u in r.creating && t != u ==> r.creating[t] != r.creating[u])
  }

  lemma StepKeepsDistinct(r: Registry, a: Action)
    requires Distinct(r) && Enabled(r, a) && (a.DrawId? ==> r.drawn < COUNTER_RANGE)
    ensures Distinct(Step(r, a).1)
    ensures a.DrawId? ==> r.counter !in r.instances && forall t :: t in r.creating ==> r.creating[t] != r.counter
  {
  }

  /** In any interleaving with at most 2^64 creations, no two creations get the same id and no creation
      overwrites an instance. */
  lemma {:induction false} IdsNeverCollide(r: Registry, actions: seq<Action>)
    requires Distinct(r) && Runs(r, actions) && r.drawn + Draws(actions) <= COUNTER_RANGE
    ensures Distinct(After(r, actions))
    ensures r.instances.Keys <= After(r, actions).instances.Keys
    decreases |actions|
  {
    if actions != [] {
      StepKeepsDistinct(r, actions[0]);
      IdsNeverCollide(Step(r, actions[0]).1, actions[1..]);
    }
  }

  /** One creation more and it does happen: the counter is back at zero and the instance that has id zero is lost. */
  lemma WrapAroundOverwrites(r: Registry, thread: nat, delta: nat, start: nat)
    requires Distinct(r) && r.drawn == COUNTER_RANGE && 0 in r.instances && thread !in r.creating
    ensures var actions := [DrawId(thread), FinishCreate(thread, delta, Some(start), None)];
            && Runs(r, actions)
            && After(r, actions).instances == r.instances[0 := Provider(0, start, delta, 0)]
  {
    var draw, finish := DrawId(thread), FinishCreate(thread, delta, Some(start), None);
    var drawing := Step(r, draw).1;
    assert drawing.creating[thread] == 0;
    assert [draw, finish][1..] == [finish] && [finish][1..] == [];
    assert Runs(Step(drawing, finish).1, []);
    assert Runs(drawing, [finish]);
    assert After(drawing, [finish]) == Step(drawing, finish).1;
  }

  // ---- Ticks ----

  ghost predicate Resets(a: Action, id: InstanceId) {
    a.ForceNew? && a.id == id
  }

  /** The updates of one instance in a run that does not reset it. */
  ghost function Updates(actions: seq<Action>, id: InstanceId): nat {
    if actions == [] then 0 else (if actions[0] == UpdateTime(id) then 1 else 0) + Updates(actions[1..], id)
  }

  /** Whatever else happens, an instance not reset keeps its start and delta and counts its own updates,
      every one of them and no others. */
  lemma {:induction false} TicksCountUpdates(r: Registry, actions: seq<Action>, id: InstanceId)
    requires Distinct(r) && Runs(r, actions) && r.drawn + Draws(actions) <= COUNTER_RANGE
    requires id in r.instances && forall k :: 0 <= k < |actions| ==> !Resets(actions[k], id)
    ensures id in After(r, actions).instances
    ensures After(r, actions).instances[id] == Later(r.instances[id], Updates(actions, id))
    decreases |actions|
  {
    if actions != [] {
      assert !Resets(actions[0], id);
      StepKeepsDistinct(r, actions[0]);
      TicksCountUpdates(Step(r, actions[0]).1, actions[1..], id);
    }
  }

  /** The start an instance gets: the one given, whatever the clock says, else the clock's. */
  ghost predicate StartsAt(start: Option<nat>, clock: Option<nat>, from: nat) {
    start == Some(from) || (start.None? && clock == Some(from))
  }

  /** Finishing a creation fails exactly with neither a start nor a clock, and then files nothing;
      otherwise the drawn id's instance is new and no other is touched.  Either way the thread is done. */
  lemma CreationEnds(r: Registry, thread: nat, delta: nat, start: Option<nat>, clock: Option<nat>)
    requires thread in r.creating
    ensures var (reply, after) := Step(r, FinishCreate(thread, delta, start, clock)); var id := r.creating[thread];
            && (reply == ClockFailed <==> start.None? && clock.None?)
            && (reply == ClockFailed ==> after.instances == r.instances)
            && (forall from :: StartsAt(start, clock, from) ==>
                  reply == Done && after.instances == r.instances[id := Provider(id, from, delta, 0)])
            && after == r.(instances := after.instances, creating := r.creating - {thread})
  {
  }

  /** A reset fails with neither, or for an id that is not there; otherwise that instance is new and no other is
      touched. */
  lemma ResetEnds(r: Registry, id: InstanceId, delta: nat, start: Option<nat>, clock: Option<nat>)
    ensures var (reply, after) := Step(r, ForceNew(id, delta, start, clock));
            && (reply == ClockFailed <==> start.None? && clock.None?)
            && (reply == InstanceNotFound(id) <==> (start.Some? || clock.Some?) && id !in r.instances)
            && (reply != Done ==> after == r)
            && (forall from :: StartsAt(start, clock, from) && id in r.instances ==>
                  reply == Done && after == r.(instances := r.instances[id := Provider(id, from, delta, 0)]))
  {
  }

  /** An update is one tick more for an instance that is there, and an error that changes nothing otherwise. */
  lemma UpdateEnds(r: Registry, id: InstanceId)
    ensures var (reply, after) := Step(r, UpdateTime(id));
            if id in r.instances then
              var p := r.instances[id];
              reply == Done && after == r.(instances := r.instances[id := Provider(p.id, p.start, p.delta,
                  p.ticks + 1)])
            else reply == InstanceNotFound(id) && after == r
  {
  }

  /** After a creation the count and the time run from its start. */
  lemma CreationStarts(r: Registry, thread: nat, delta: nat, start: Option<nat>, clock: Option<nat>, from: nat,
                       rest: seq<Action>)
    requires Distinct(r) && thread in r.creating && StartsAt(start, clock, from)
    requires Runs(Step(r, FinishCreate(thread, delta, start, clock)).1, rest)
    requires r.drawn + Draws(rest) <= COUNTER_RANGE
    requires forall k :: 0 <= k < |rest| ==> !Resets(rest[k], r.creating[thread])
    ensures var created, id := Step(r, FinishCreate(thread, delta, start, clock)).1, r.creating[thread];
            && id in After(created, rest).instances
            && After(created, rest).instances[id] == Provider(id, from, delta, Updates(rest, id))
            && CurrentTime(After(created, rest).instances[id])
               == Min(U64_MAX, AsMillis(from) + AsMillis(delta) * Updates(rest, id))
  {
    var create, id := FinishCreate(thread, delta, start, clock), r.creating[thread];
    CreationEnds(r, thread, delta, start, clock);
    StepKeepsDistinct(r, create);
    TicksCountUpdates(Step(r, create).1, rest, id);
    CurrentTimeIsMin(Provider(id, from, delta, Updates(rest, id)));
  }

  /** A reset starts the count again, from the new start. */
  lemma ResetRestarts(r: Registry, id: InstanceId, delta: nat, start: Option<nat>, clock: Option<nat>, from: nat,
                      rest: seq<Action>)
    requires Distinct(r) && id in r.instances && StartsAt(start, clock, from)
    requires Runs(Step(r, ForceNew(id, delta, start, clock)).1, rest) && r.drawn + Draws(rest) <= COUNTER_RANGE
    requires forall k :: 0 <= k < |rest| ==> !Resets(rest[k], id)
    ensures var reset := Step(r, ForceNew(id, delta, start, clock)).1;
            && id in After(reset, rest).instances
            && After(reset, rest).instances[id] == Provider(id, from, delta, Updates(rest, id))
            && CurrentTime(After(reset, rest).instances[id])
                 == Min(U64_MAX, AsMillis(from) + AsMillis(delta) * Updates(rest, id))
  {
    var reset := ForceNew(id, delta, start, clock);
    ResetEnds(r, id, delta, start, clock);
    StepKeepsDistinct(r, reset);
    TicksCountUpdates(Step(r, reset).1, rest, id);
    CurrentTimeIsMin(Provider(id, from, delta, Updates(rest, id)));
  }

  /** Blocks made with a fresh snapshot each: after any run the snapshots' slots are as far apart as the
      updates between them, while a snapshot kept from before reads the time it always read. */
  lemma FreshSlotsAdvance(r: Registry, actions: seq<Action>, id: InstanceId, slotDuration: nat, m: nat)
    requires Distinct(r) && Runs(r, actions) && r.drawn + Draws(actions) <= COUNTER_RANGE
    requires id in r.instances && forall k :: 0 <= k < |actions| ==> !Resets(actions[k], id)
    requires slotDuration > 0 && AsMillis(r.instances[id].delta) >= slotDuration * m
    requires Elapsed(Later(r.instances[id], Updates(actions, id))) <= U64_MAX
    ensures id in After(r, actions).instances
    ensures var before, after := SlotOf(r.instances[id], slotDuration),
            SlotOf(After(r, actions).instances[id], slotDuration);
            && after >= before + m * Updates(actions, id)
            && (AsMillis(r.instances[id].delta) == slotDuration * m ==> after == before + m * Updates(actions, id))
  {
    TicksCountUpdates(r, actions, id);
    SlotsOverBlocks(r.instances[id], slotDuration, Updates(actions, id), m);
  }

  /** A snapshot taken between two runs: whatever happens afterwards, what it reports is the time of the
      updates before it was taken, and a fresh one reports those and the updates since. */
  lemma SnapshotReports(r: Registry, before: seq<Action>, more: seq<Action>, id: InstanceId)
    requires Distinct(r) && id in r.instances
    requires Runs(r, before) && Runs(After(r, before), more) && r.drawn + Draws(before) + Draws(more) <= COUNTER_RANGE
    requires forall k :: 0 <= k < |before| ==> !Resets(before[k], id)
    requires forall k :: 0 <= k < |more| ==> !Resets(more[k], id)
    ensures id in After(r, before).instances && id in After(After(r, before), more).instances
    ensures var p := r.instances[id];
            var snapshot, now := After(r, before).instances[id], After(After(r, before), more).instances[id];
            && snapshot.id == id
            && CurrentTime(snapshot) == Min(U64_MAX, Elapsed(Later(p, Updates(before, id))))
            && CurrentTime(now) == Min(U64_MAX, Elapsed(Later(p, Updates(before, id) + Updates(more, id))))
            && CurrentTime(snapshot) <= CurrentTime(now)
  {
    hide Elapsed, CurrentTime, AsMillis, After, Runs, Updates, Draws;
    TicksCountUpdates(r, before, id);
    DrawsAddUp(r, before);
    IdsNeverCollide(r, before);
    TicksCountUpdates(After(r, before), more, id);
    var snapshot := After(r, before).instances[id];
    CurrentTimeIsMin(snapshot);
    CurrentTimeIsMin(Later(snapshot, Updates(more, id)));
    CurrentTimeIsMonotone(snapshot, snapshot.ticks + Updates(more, id));
  }

  lemma {:induction false} DrawsAddUp(r: Registry, actions: seq<Action>)
    requires Runs(r, actions)
    ensures After(r, actions).drawn == r.drawn + Draws(actions)
    decreases |actions|
  {
    if actions != [] {
      DrawsAddUp(Step(r, actions[0]).1, actions[1..]);
    }
  }

  // ---- The shared registry itself ----

  class CurrTimeProviders {
    var counter: nat
    var instances: map<InstanceId, Provider>
    var creating: map<nat, InstanceId>
    ghost var drawn: nat

    ghost function View(): Registry
      reads this
    {
      Registry(counter, instances, creating, drawn)
    }

    constructor ()
      ensures View() == Registry(0, map[], map[], 0) && Distinct(View())
    {
      counter, instances, creating, drawn := 0, map[], map[], 0;
    }

    /** The atomic half of `create_instance`. */
    method DrawId(thread: nat) returns (id: InstanceId)
      requires thread !in creating
      modifies this
      ensures id == old(counter)
      ensures (Done, View()) == Step(old(View()), Action.DrawId(thread))
    {
      id := counter;
      counter := (counter + 1) % COUNTER_RANGE;
      creating := creating[thread := id];
      drawn := drawn + 1;
    }

    /** The locked half. */
    method FinishCreate(thread: nat, delta: nat, start: Option<nat>, clock: Option<nat>) returns (answer: Reply)
      requires thread in creating
      modifies this
      ensures (answer, View()) == Step(old(View()), Action.FinishCreate(thread, delta, start, clock))
      ensures answer == ClockFailed <==> start.None? && clock.None?
      ensures forall from :: StartsAt(start, clock, from) ==>
                var id := old(creating)[thread]; instances == old(instances)[id := Provider(id, from, delta, 0)]
    {
      var id := creating[thread];
      creating := creating - {thread};
      var from := StartOf(start, clock);
      if from.None? {
        return ClockFailed;
      }
      instances := instances[id := Provider(id, from.value, delta, 0)];
      answer := Done;
    }

    method ForceNew(id: InstanceId, delta: nat, start: Option<nat>, clock: Option<nat>) returns (answer: Reply)
      modifies this
      ensures (answer, View()) == Step(old(View()), Action.ForceNew(id, delta, start, clock))
      ensures answer == ClockFailed <==> start.None? && clock.None?
      ensures forall from :: StartsAt(start, clock, from) && id in old(instances) ==>
                instances == old(instances)[id := Provider(id, from, delta, 0)]
    {
      var from := StartOf(start, clock);
      if from.None? {
        return ClockFailed;
      }
      if id !in instances {
        return InstanceNotFound(id);
      }
      instances := instances[id := Provider(id, from.value, delta, 0)];
      answer := Done;
    }

    method UpdateTime(id: InstanceId) returns (answer: Reply)
      modifies this
      ensures (answer, View()) == Step(old(View()), Action.UpdateTime(id))
    {
      if id !in instances {
        return InstanceNotFound(id);
      }
      var instance := instances[id];
      instances := instances[id := instance.(ticks := instance.ticks + 1)];
      answer := Done;
    }

    /** A copy: later calls on the registry leave it alone, so `SnapshotReports` holds of it. */
    method GetInstance(id: InstanceId) returns (snapshot: Option<Provider>)
      ensures snapshot.Some? <==> id in View().instances
      ensures snapshot.Some? ==> snapshot.value == View().instances[id]
      ensures snapshot.Some? && Distinct(View()) ==> snapshot.value.id == id
    {
      snapshot := if id in instances then Some(instances[id]) else None;
    }

    /** The inherent carries the snapshot's time; the tick goes to the registry, so a snapshot used
        twice reports the same time twice. */
    method ProvideInherentData(snapshot: Provider) returns (millis: nat, answer: Reply)
      modifies this
      ensures millis == Min(U64_MAX, Elapsed(snapshot))
      ensures (answer, View()) == Step(old(View()), Action.UpdateTime(snapshot.id))
    {
      CurrentTimeIsMin(snapshot);
      millis := CurrentTime(snapshot);
      answer := UpdateTime(snapshot.id);
    }
  }
}
