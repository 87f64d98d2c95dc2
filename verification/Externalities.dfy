/** The overlay that `execute_with` and `execute_with_mut` run a closure on.

    A closure is any deterministic strategy: given the answers it has received so far it names its
    next storage call or returns.  `steps` is the length of one execution of it.
 */
module Externalities {
  import opened Ledger

  type Key = string
  type Value = string
  type Kv = map<Key, Value>

  /** One level of pending writes; `None` is a deletion. */
  type Layer = map<Key, Option<Value>>

  datatype Call<R> =
    | Get(key: Key)
    | Put(key: Key, value: Option<Value>)
    | Begin
    | CommitTx
    | RollbackTx
    | Return(result: R)

  datatype Reply = Read(value: Option<Value>) | Done | NoOpenTransaction

  type Closure<!R> = seq<Reply> -> Call<R>

  datatype Executed<S, R> =
    | Finished(post: S, result: R)
    | TransactionCommitFailed
    | DrainFailed
    | StillRunning

  // ---- Reference: the closure run directly on the state, transactions kept as snapshots ----

  datatype Direct = Direct(state: Kv, saved: seq<Kv>)

  function Lookup(s: Kv, key: Key): Option<Value> {
    if key in s then Some(s[key]) else None
  }

  function Write(s: Kv, key: Key, value: Option<Value>): Kv {
    match value
    case Some(v) => s[key := v]
    case None => s - {key}
  }

  function DirectCall<R>(d: Direct, call: Call<R>): (Direct, Reply) {
    match call
    case Get(key) => (d, Read(Lookup(d.state, key)))
    case Put(key, value) => (d.(state := Write(d.state, key, value)), Done)
    case Begin => (d.(saved := d.saved + [d.state]), Done)
    case CommitTx => if d.saved == [] then (d, NoOpenTransaction) else (d.(saved := d.saved[..|d.saved| - 1]), Done)
    case RollbackTx =>
      if d.saved == [] then (d, NoOpenTransaction)
      else (Direct(d.saved[|d.saved| - 1], d.saved[..|d.saved| - 1]), Done)
    case Return(_) => (d, Done)
  }

  function DirectRun<R>(closure: Closure<R>, steps: nat, log: seq<Reply>, d: Direct): (Direct, Option<R>) {
    var call := closure(log);
    if call.Return? then (d, Some(call.result))
    else if steps == 0 then (d, None)
    else
      var (d', reply) := DirectCall(d, call);
      DirectRun(closure, steps - 1, log + [reply], d')
  }

  /** The meaning of a committed closure: run it on the state inside one transaction, keep the
      final state, and fail when it closed or left open more transactions than it should. */
  function Meaning<R>(closure: Closure<R>, steps: nat, state: Kv): Executed<Kv, R> {
    var (d, result) := DirectRun(closure, steps, [], Direct(state, [state]));
    if result.None? then StillRunning
    else if d.saved == [] then TransactionCommitFailed
    else if |d.saved| > 1 then DrainFailed
    else Finished(d.state, result.value)
  }

  // ---- The overlay ----

  function Apply(s: Kv, layer: Layer): (after: Kv)
    ensures forall key :: Lookup(after, key) == if key in layer then layer[key] else Lookup(s, key)
  {
    map key | key in s.Keys + layer.Keys && (if key in layer then layer[key].Some? else key in s)
      :: if key in layer then layer[key].value else s[key]
  }

  function ApplyAll(s: Kv, layers: seq<Layer>): Kv {
    if layers == [] then s else Apply(ApplyAll(s, layers[..|layers| - 1]), layers[|layers| - 1])
  }

  /** Top-most layer first, then the backend. */
  function ReadThrough(s: Kv, layers: seq<Layer>, key: Key): Option<Value> {
    if layers == [] then Lookup(s, key)
    else if key in layers[|layers| - 1] then layers[|layers| - 1][key]
    else ReadThrough(s, layers[..|layers| - 1], key)
  }

  lemma {:induction false} ReadThroughIsLookup(s: Kv, layers: seq<Layer>, key: Key)
    ensures ReadThrough(s, layers, key) == Lookup(ApplyAll(s, layers), key)
  {
    if layers != [] {
      ReadThroughIsLookup(s, layers[..|layers| - 1], key);
    }
  }

  lemma SameLookupsSameState(a: Kv, b: Kv)
    requires forall key :: Lookup(a, key) == Lookup(b, key)
    ensures a == b
  {
    forall key ensures key in a <==> key in b {
      assert Lookup(a, key) == Lookup(b, key);
    }
    forall key | key in a ensures a[key] == b[key] {
      assert Lookup(a, key) == Lookup(b, key);
    }
  }

  lemma ApplyMerged(s: Kv, lower: Layer, upper: Layer)
    ensures Apply(s, lower + upper) == Apply(Apply(s, lower), upper)
  {
    SameLookupsSameState(Apply(s, lower + upper), Apply(Apply(s, lower), upper));
  }

  lemma ApplyWrite(s: Kv, layer: Layer, key: Key, value: Option<Value>)
    ensures Apply(s, layer[key := value]) == Write(Apply(s, layer), key, value)
  {
    SameLookupsSameState(Apply(s, layer[key := value]), Write(Apply(s, layer), key, value));
  }

  /** The state as it looked when the k-th open transaction began. */
  ghost function AtDepth(backend: Kv, layers: seq<Layer>, k: nat): Kv
    requires k < |layers|
  {
    ApplyAll(backend, layers[..k + 1])
  }

  lemma AtDepthOfPrefix(backend: Kv, a: seq<Layer>, b: seq<Layer>, n: nat)
    requires n <= |a| && n <= |b| && a[..n] == b[..n]
    ensures forall k :: 0 <= k < n ==> AtDepth(backend, a, k) == AtDepth(backend, b, k)
  {
    forall k | 0 <= k < n ensures AtDepth(backend, a, k) == AtDepth(backend, b, k) {
      assert a[..k + 1] == a[..n][..k + 1] == b[..k + 1];
    }
  }

  /** Layer 0 holds committed changes; layer k + 1 the writes since the k-th open transaction began. */
  ghost predicate Coupled(backend: Kv, layers: seq<Layer>, d: Direct) {
    && |layers| == |d.saved| + 1
    && ApplyAll(backend, layers) == d.state
    && (forall k :: 0 <= k < |d.saved| ==> AtDepth(backend, layers, k) == d.saved[k])
  }

  function OverlayCall<R>(backend: Kv, layers: seq<Layer>, call: Call<R>): (next: (seq<Layer>, Reply))
    requires layers != []
    ensures next.0 != []
  {
    var top := |layers| - 1;
    match call
    case Get(key) => (layers, Read(ReadThrough(backend, layers, key)))
    case Put(key, value) => (layers[top := layers[top][key := value]], Done)
    case Begin => (layers + [map[]], Done)
    case CommitTx =>
      if top == 0 then (layers, NoOpenTransaction)
      else (layers[..top - 1] + [layers[top - 1] + layers[top]], Done)
    case RollbackTx => if top == 0 then (layers, NoOpenTransaction) else (layers[..top], Done)
    case Return(_) => (layers, Done)
  }

  /** Every storage call answers the same on the overlay as on the state itself and keeps them coupled. */
  lemma CallCoupled<R>(backend: Kv, layers: seq<Layer>, d: Direct, call: Call<R>)
    requires Coupled(backend, layers, d)
    ensures OverlayCall(backend, layers, call).1 == DirectCall(d, call).1
    ensures Coupled(backend, OverlayCall(backend, layers, call).0, DirectCall(d, call).0)
  {
    var top := |layers| - 1;
    var after := OverlayCall(backend, layers, call).0;
    match call
    case Get(key) => ReadThroughIsLookup(backend, layers, key);
    case Put(key, value) =>
      AtDepthOfPrefix(backend, after, layers, top);
      assert after[..top] == layers[..top];
      ApplyWrite(ApplyAll(backend, layers[..top]), layers[top], key, value);
    case Begin =>
      assert after[..top + 1] == layers;
      AtDepthOfPrefix(backend, after, layers, top);
      SameLookupsSameState(Apply(d.state, map[]), d.state);
    case CommitTx =>
      if top > 0 {
        AtDepthOfPrefix(backend, after, layers, top - 1);
        CommitMerges(backend, layers);
      }
    case RollbackTx =>
      if top > 0 {
        assert layers[..top] == layers[..(top - 1) + 1];
        assert AtDepth(backend, layers, top - 1) == d.saved[top - 1];
        AtDepthOfPrefix(backend, after, layers, top);
      }
    case Return(_) =>
  }

  lemma CommitMerges(backend: Kv, layers: seq<Layer>)
    requires |layers| >= 2
    ensures var top := |layers| - 1;
            ApplyAll(backend, layers[..top - 1] + [layers[top - 1] + layers[top]]) == ApplyAll(backend, layers)
  {
    var top := |layers| - 1;
    var below := layers[..top];
    var merged := layers[..top - 1] + [layers[top - 1] + layers[top]];
    assert below[..top - 1] == layers[..top - 1] == merged[..top - 1];
    ApplyMerged(ApplyAll(backend, layers[..top - 1]), layers[top - 1], layers[top]);
  }

  // ---- What the calls mean to a reader ----

  /** Calls that close exactly the transactions they open, `depth` of which are open already. */
  ghost predicate Balanced<R(!new)>(calls: seq<Call<R>>, depth: nat) {
    if calls == [] then depth == 0
    else
      match calls[0]
      case Begin => Balanced(calls[1..], depth + 1)
      case CommitTx => depth > 0 && Balanced(calls[1..], depth - 1)
      case RollbackTx => depth > 0 && Balanced(calls[1..], depth - 1)
      case Return(_) => false
      case _ => Balanced(calls[1..], depth)
  }

  ghost function OverlayCalls<R>(backend: Kv, layers: seq<Layer>, calls: seq<Call<R>>): (after: seq<Layer>)
    requires layers != []
    ensures after != []
    decreases |calls|
  {
    if calls == [] then layers else OverlayCalls(backend, OverlayCall(backend, layers, calls[0]).0, calls[1..])
  }

  lemma {:induction false} OverlayCallsJoin<R>(backend: Kv, layers: seq<Layer>, front: seq<Call<R>>,
                                               back: seq<Call<R>>)
    requires layers != []
    ensures OverlayCalls(backend, layers, front + back)
            == OverlayCalls(backend, OverlayCalls(backend, layers, front), back)
    decreases |front|
  {
    if front == [] {
      assert front + back == back;
    } else {
      assert (front + back)[1..] == front[1..] + back;
      OverlayCallsJoin(backend, OverlayCall(backend, layers, front[0]).0, front[1..], back);
    }
  }

  /** Balanced calls touch no layer below the one they start on, and end on it. */
  lemma {:induction false} BalancedKeepsBelow<R(!new)>(backend: Kv, layers: seq<Layer>, calls: seq<Call<R>>,
                                                       depth: nat, base: nat)
    requires |layers| == base + 1 + depth && Balanced(calls, depth)
    ensures var after := OverlayCalls(backend, layers, calls); |after| == base + 1 && after[..base] == layers[..base]
    decreases |calls|
  {
    if calls != [] {
      var next := OverlayCall(backend, layers, calls[0]).0;
      var now := match calls[0]
                 case Begin => depth + 1
                 case CommitTx => depth - 1
                 case RollbackTx => depth - 1
                 case _ => depth;
      assert next[..base] == layers[..base];
      BalancedKeepsBelow(backend, next, calls[1..], now, base);
    }
  }

  /** One call, to a reader: a write changes its own key and no other, opening and committing change no
      key; and which layers it leaves alone. */
  lemma CallReads<R>(backend: Kv, layers: seq<Layer>, call: Call<R>, key: Key)
    requires layers != []
    ensures var (after, reply) := OverlayCall(backend, layers, call); var top := |layers| - 1;
            match call
            case Put(k, value) =>
              && ReadThrough(backend, after, key) == (if k == key then value else ReadThrough(backend, layers, key))
              && |after| == |layers| && after[..top] == layers[..top] && reply == Done
            case Get(k) => after == layers && reply == Read(ReadThrough(backend, layers, k))
            case Begin =>
              && ReadThrough(backend, after, key) == ReadThrough(backend, layers, key)
              && |after| == |layers| + 1 && after[..|layers|] == layers && reply == Done
            case CommitTx =>
              && ReadThrough(backend, after, key) == ReadThrough(backend, layers, key)
              && (reply == NoOpenTransaction <==> top == 0)
              && if top == 0 then after == layers
                 else |after| == |layers| - 1 && after[..top - 1] == layers[..top - 1] && reply == Done
            case RollbackTx =>
              && (reply == NoOpenTransaction <==> top == 0)
              && if top == 0 then after == layers else after == layers[..top] && reply == Done
            case Return(_) => after == layers
  {
    var top := |layers| - 1;
    var after := OverlayCall(backend, layers, call).0;
    match call
    case Put(k, value) => assert after[..top] == layers[..top];
    case Begin => assert after[..|layers|] == layers;
    case CommitTx =>
      if top > 0 {
        var below := layers[..top];
        assert after[..top - 1] == layers[..top - 1] == below[..top - 1];
        assert ReadThrough(backend, layers, key)
            == if key in layers[top] then layers[top][key] else ReadThrough(backend, below, key);
      }
    case _ =>
  }

  /** Whatever balanced calls run between them, opening a transaction and rolling it back leaves the
      overlay, and with it what every key reads as, the way it was. */
  lemma RollbackRestores<R(!new)>(backend: Kv, layers: seq<Layer>, calls: seq<Call<R>>)
    requires layers != [] && Balanced(calls, 0)
    ensures OverlayCalls(backend, layers, [Begin] + calls + [RollbackTx]) == layers
    ensures forall key :: ReadThrough(backend, OverlayCalls(backend, layers, [Begin] + calls + [RollbackTx]), key)
                       == ReadThrough(backend, layers, key)
  {
    var begun := OverlayCall<R>(backend, layers, Begin).0;
    BalancedKeepsBelow(backend, begun, calls, 0, |layers|);
    OverlayCallsJoin(backend, layers, [Begin], calls);
    OverlayCallsJoin(backend, layers, [Begin] + calls, [RollbackTx]);
    assert OverlayCalls<R>(backend, layers, [Begin]) == begun by {
      assert [Call<R>.Begin][1..] == [];
    }
    var inside := OverlayCalls(backend, begun, calls);
    assert OverlayCalls<R>(backend, inside, [RollbackTx]) == OverlayCall<R>(backend, inside, RollbackTx).0 by {
      assert [Call<R>.RollbackTx][1..] == [];
    }
  }

  // ---- The same of a whole closure ----

  ghost function DirectCalls<R>(d: Direct, calls: seq<Call<R>>): Direct
    decreases |calls|
  {
    if calls == [] then d else DirectCalls(DirectCall(d, calls[0]).0, calls[1..])
  }

  lemma {:induction false} DirectCallsJoin<R>(d: Direct, front: seq<Call<R>>, back: seq<Call<R>>)
    ensures DirectCalls(d, front + back) == DirectCalls(DirectCalls(d, front), back)
    decreases |front|
  {
    if front == [] {
      assert front + back == back;
    } else {
      assert (front + back)[1..] == front[1..] + back;
      DirectCallsJoin(DirectCall(d, front[0]).0, front[1..], back);
    }
  }

  lemma {:induction false} CallsCoupled<R>(backend: Kv, layers: seq<Layer>, d: Direct, calls: seq<Call<R>>)
    requires Coupled(backend, layers, d)
    ensures Coupled(backend, OverlayCalls(backend, layers, calls), DirectCalls(d, calls))
    decreases |calls|
  {
    if calls != [] {
      CallCoupled(backend, layers, d, calls[0]);
      CallsCoupled(backend, OverlayCall(backend, layers, calls[0]).0, DirectCall(d, calls[0]).0, calls[1..]);
    }
  }

  /** Coupled to the same overlay means the same. */
  lemma CoupledIsUnique(backend: Kv, layers: seq<Layer>, a: Direct, b: Direct)
    requires Coupled(backend, layers, a) && Coupled(backend, layers, b)
    ensures a == b
  {
    assert a.saved == b.saved;
  }

  /** The answers these calls get. */
  ghost function Replies<R>(d: Direct, calls: seq<Call<R>>): (replies: seq<Reply>)
    ensures |replies| == |calls|
    decreases |calls|
  {
    if calls == [] then []
    else
      var front := calls[..|calls| - 1];
      Replies(d, front) + [DirectCall(DirectCalls(d, front), calls[|calls| - 1]).1]
  }

  /** The closure, given the answers it gets on `d`, makes these calls and then returns `x`. */
  ghost predicate Makes<R(!new)>(closure: Closure<R>, d: Direct, calls: seq<Call<R>>, x: R) {
    && NoReturn(calls)
    && (forall k :: 0 <= k < |calls| ==> closure(Replies(d, calls[..k])) == calls[k])
    && closure(Replies(d, calls)) == Return(x)
  }

  ghost predicate NoReturn<R(!new)>(calls: seq<Call<R>>) {
    forall k :: 0 <= k < |calls| ==> !calls[k].Return?
  }

  lemma {:induction false} RunMakesCalls<R(!new)>(closure: Closure<R>, steps: nat, d: Direct, calls: seq<Call<R>>,
                                                  k: nat, x: R)
    requires Makes(closure, d, calls, x) && k <= |calls| && |calls| - k <= steps
    ensures DirectRun(closure, steps, Replies(d, calls[..k]), DirectCalls(d, calls[..k]))
            == (DirectCalls(d, calls), Some(x))
    decreases |calls| - k
  {
    if k == |calls| {
      assert calls[..k] == calls;
    } else {
      OneMoreCall(d, calls, k);
      RunMakesCalls(closure, steps - 1, d, calls, k + 1, x);
    }
  }

  lemma OneMoreCall<R>(d: Direct, calls: seq<Call<R>>, k: nat)
    requires k < |calls|
    ensures var (next, reply) := DirectCall(DirectCalls(d, calls[..k]), calls[k]);
            && DirectCalls(d, calls[..k + 1]) == next
            && Replies(d, calls[..k + 1]) == Replies(d, calls[..k]) + [reply]
  {
    var longer := calls[..k + 1];
    assert longer[..k] == calls[..k] && longer == calls[..k] + [calls[k]];
    DirectCallsJoin(d, calls[..k], [calls[k]]);
    assert [calls[k]][1..] == [];
    assert DirectCalls(DirectCalls(d, calls[..k]), [calls[k]])
        == DirectCall(DirectCalls(d, calls[..k]), calls[k]).0;
  }

  /** A closure that has more calls to make than steps is cut off. */
  lemma {:induction false} RunIsCutOff<R(!new)>(closure: Closure<R>, steps: nat, d: Direct, calls: seq<Call<R>>, k: nat,
                                                x: R)
    requires Makes(closure, d, calls, x) && k <= |calls| && steps < |calls| - k
    ensures DirectRun(closure, steps, Replies(d, calls[..k]), DirectCalls(d, calls[..k])).1.None?
    decreases steps
  {
    if steps > 0 {
      OneMoreCall(d, calls, k);
      RunIsCutOff(closure, steps - 1, d, calls, k + 1, x);
    }
  }

  /** Where a commit starts: inside one transaction on the state. */
  function AtStart(state: Kv): Direct {
    Direct(state, [state])
  }

  lemma StartCoupled(state: Kv)
    ensures Coupled(state, [map[], map[]], AtStart(state))
  {
    var layers: seq<Layer> := [map[], map[]];
    var none: Layer := map[];
    SameLookupsSameState(Apply(state, none), state);
    assert layers[..1] == [none] && layers[..1][..0] == [];
    assert ApplyAll(state, layers[..1]) == state;
    assert AtDepth(state, layers, 0) == state;
  }

  /** Transactions rolled back in the middle of a commit change nothing that comes of it. */
  lemma RolledBackLeavesNothing<R(!new)>(state: Kv, before: seq<Call<R>>, inner: seq<Call<R>>)
    requires Balanced(inner, 0)
    ensures DirectCalls(AtStart(state), before + ([Begin] + inner + [RollbackTx]))
            == DirectCalls(AtStart(state), before)
  {
    var undone := [Begin] + inner + [RollbackTx];
    StartCoupled(state);
    CallsCoupled(state, [map[], map[]], AtStart(state), before);
    var layers, d := OverlayCalls(state, [map[], map[]], before), DirectCalls(AtStart(state), before);
    DirectCallsJoin(AtStart(state), before, undone);
    CallsCoupled(state, layers, d, undone);
    RollbackRestores(state, layers, inner);
    CoupledIsUnique(state, layers, d, DirectCalls(d, undone));
  }

  /** The closure that makes the given calls whatever it is answered. */
  function Script<R>(calls: seq<Call<R>>, x: R): Closure<R> {
    log => if |log| < |calls| then calls[|log|] else Return(x)
  }

  lemma ScriptMakes<R(!new)>(calls: seq<Call<R>>, x: R, d: Direct)
    requires NoReturn(calls)
    ensures Makes(Script(calls, x), d, calls, x)
  {
  }

  lemma MeaningOfCalls<R(!new)>(closure: Closure<R>, steps: nat, state: Kv, calls: seq<Call<R>>, x: R)
    requires Makes(closure, AtStart(state), calls, x) && |calls| <= steps
    ensures DirectRun(closure, steps, [], AtStart(state)) == (DirectCalls(AtStart(state), calls), Some(x))
  {
    RunMakesCalls(closure, steps, AtStart(state), calls, 0, x);
    assert calls[..0] == [];
  }

  /** A commit whose closure rolls a transaction back means what it would mean without that transaction. */
  lemma RolledBackMeansNothing<R(!new)>(closure: Closure<R>, steps: nat, state: Kv, before: seq<Call<R>>,
                                        inner: seq<Call<R>>, after: seq<Call<R>>, x: R)
    requires Balanced(inner, 0) && NoReturn(before) && NoReturn(after)
    requires var calls := before + ([Begin] + inner + [RollbackTx]) + after;
             Makes(closure, AtStart(state), calls, x) && |calls| <= steps
    ensures Meaning(closure, steps, state)
            == Meaning(Script(before + after, x), |before + after|, state)
    ensures before == after == [] ==> Meaning(closure, steps, state) == Finished(state, x)
  {
    var undone := [Begin] + inner + [RollbackTx];
    MeaningOfCalls(closure, steps, state, before + undone + after, x);
    DirectCallsJoin(AtStart(state), before + undone, after);
    RolledBackLeavesNothing(state, before, inner);
    DirectCallsJoin(AtStart(state), before, after);
    ScriptMakes(before + after, x, AtStart(state));
    MeaningOfCalls(Script(before + after, x), |before + after|, state, before + after, x);
  }

  /** What a key reads as after these calls, were nothing ever rolled back. */
  ghost function LastWrite<R>(calls: seq<Call<R>>, key: Key, first: Option<Value>): Option<Value>
    decreases |calls|
  {
    if calls == [] then first
    else
      match calls[|calls| - 1]
      case Put(k, value) => if k == key then value else LastWrite(calls[..|calls| - 1], key, first)
      case _ => LastWrite(calls[..|calls| - 1], key, first)
  }

  ghost predicate NoRollback<R(!new)>(calls: seq<Call<R>>) {
    forall k :: 0 <= k < |calls| ==> !calls[k].RollbackTx?
  }

  lemma {:induction false} ReadsLastWrite<R(!new)>(d: Direct, calls: seq<Call<R>>, key: Key)
    requires NoRollback(calls)
    ensures Lookup(DirectCalls(d, calls).state, key) == LastWrite(calls, key, Lookup(d.state, key))
    decreases |calls|
  {
    if calls != [] {
      var front, last := calls[..|calls| - 1], calls[|calls| - 1];
      ReadsLastWrite(d, front, key);
      assert calls == front + [last] && [last][1..] == [];
      DirectCallsJoin(d, front, [last]);
      assert DirectCalls(DirectCalls(d, front), [last]) == DirectCall(DirectCalls(d, front), last).0;
    }
  }

  /** The transactions open after these calls; closing one that is not open changes nothing. */
  ghost function OpenAfter<R>(calls: seq<Call<R>>, open: nat): nat
    decreases |calls|
  {
    if calls == [] then open
    else
      OpenAfter(calls[1..],
                match calls[0]
                case Begin => open + 1
                case CommitTx => if open == 0 then 0 else open - 1
                case RollbackTx => if open == 0 then 0 else open - 1
                case _ => open)
  }

  lemma {:induction false} OpenCounts<R>(d: Direct, calls: seq<Call<R>>)
    ensures |DirectCalls(d, calls).saved| == OpenAfter(calls, |d.saved|)
    decreases |calls|
  {
    if calls != [] {
      OpenCounts(DirectCall(d, calls[0]).0, calls[1..]);
    }
  }

  /** How a commit ends is decided by the steps it has and by the transactions its closure leaves open, the
      commit's own counted; and where nothing is rolled back every key ends as it was last written. */
  lemma CommitEndsByOpen<R(!new)>(closure: Closure<R>, steps: nat, state: Kv, calls: seq<Call<R>>, x: R)
    requires Makes(closure, AtStart(state), calls, x)
    ensures var outcome, open := Meaning(closure, steps, state), OpenAfter(calls, 1);
            && (outcome.StillRunning? <==> steps < |calls|)
            && (outcome.TransactionCommitFailed? <==> |calls| <= steps && open == 0)
            && (outcome.DrainFailed? <==> |calls| <= steps && open > 1)
            && (outcome.Finished? <==> |calls| <= steps && open == 1)
            && (outcome.Finished? ==> outcome.result == x)
            && (outcome.Finished? && NoRollback(calls) ==>
                  forall key :: Lookup(outcome.post, key) == LastWrite(calls, key, Lookup(state, key)))
  {
    if |calls| <= steps {
      MeaningOfCalls(closure, steps, state, calls, x);
      OpenCounts(AtStart(state), calls);
      if NoRollback(calls) {
        forall key ensures Lookup(DirectCalls(AtStart(state), calls).state, key)
                        == LastWrite(calls, key, Lookup(state, key))
        {
          ReadsLastWrite(AtStart(state), calls, key);
        }
      }
    } else {
      RunIsCutOff(closure, steps, AtStart(state), calls, 0, x);
      assert calls[..0] == [];
    }
  }

  /** The provider: a borrowed backend state and the overlay its methods mutate. */
  class ExternalitiesProvider {
    const backend: Kv
    var layers: seq<Layer>

    constructor (backend: Kv)
      ensures this.backend == backend
      ensures Coupled(backend, layers, Direct(backend, []))
    {
      this.backend := backend;
      layers := [map[]];
      new;
      assert ApplyAll(backend, []) == backend;
      SameLookupsSameState(Apply(backend, map[]), backend);
    }

    /** Run the closure against the overlay for one execution of at most `steps` calls. */
    method Run<R>(closure: Closure<R>, steps: nat, log: seq<Reply>, ghost d: Direct) returns (result: Option<R>)
      requires Coupled(backend, layers, d)
      modifies this
      ensures result == DirectRun(closure, steps, log, d).1
      ensures Coupled(backend, layers, DirectRun(closure, steps, log, d).0)
      decreases steps
    {
      var call := closure(log);
      if call.Return? {
        return Some(call.result);
      }
      if steps == 0 {
        return None;
      }
      CallCoupled(backend, layers, d, call);
      var (next, reply) := OverlayCall(backend, layers, call);
      layers := next;
      result := Run(closure, steps - 1, log + [reply], DirectCall(d, call).0);
    }

    /** Dry run: the closure sees the state, and whatever it writes stays in the overlay. */
    method ExecuteWith<R>(closure: Closure<R>, steps: nat) returns (result: Option<R>)
      requires Coupled(backend, layers, Direct(backend, []))
      modifies this
      ensures result == DirectRun(closure, steps, [], Direct(backend, [])).1
    {
      result := Run(closure, steps, [], Direct(backend, []));
    }

    /** Committed run: start a transaction, run, commit it, drain the overlay.  What is drained,
        applied to the backend state, is the meaning of the closure; both error exits are exact. */
    method ExecuteWithMut<R>(closure: Closure<R>, steps: nat) returns (outcome: Executed<Layer, R>)
      requires Coupled(backend, layers, Direct(backend, []))
      modifies this
      ensures match Meaning(closure, steps, backend)
              case Finished(post, r) =>
                outcome.Finished? && outcome.result == r && Apply(backend, outcome.post) == post
              case TransactionCommitFailed => outcome.TransactionCommitFailed?
              case DrainFailed => outcome.DrainFailed?
              case StillRunning => outcome.StillRunning?
    {
      ghost var d := Direct(backend, []);
      CallCoupled<R>(backend, layers, d, Begin);
      layers := OverlayCall<R>(backend, layers, Begin).0;
      d := Direct(backend, [backend]);
      assert d == DirectCall<R>(Direct(backend, []), Begin).0;

      var result := Run(closure, steps, [], d);
      d := DirectRun(closure, steps, [], d).0;
      if result.None? {
        return StillRunning;
      }
      outcome := CommitAndDrain(result.value, d);
    }

    method CommitAndDrain<R>(result: R, ghost d: Direct) returns (outcome: Executed<Layer, R>)
      requires Coupled(backend, layers, d)
      modifies this
      ensures match |d.saved|
              case 0 => outcome.TransactionCommitFailed?
              case 1 => outcome.Finished? && outcome.result == result && Apply(backend, outcome.post) == d.state
              case _ => outcome.DrainFailed?
    {
      CallCoupled<R>(backend, layers, d, CommitTx);
      var (next, reply) := OverlayCall<R>(backend, layers, CommitTx);
      if reply.NoOpenTransaction? {
        return TransactionCommitFailed;
      }
      layers := next;
      if |layers| > 1 {
        return DrainFailed;
      }
      assert ApplyAll(backend, layers) == Apply(backend, layers[0]) by {
        assert layers[..|layers| - 1] == [];
      }
      outcome := Finished(layers[0], result);
      layers := [map[]];
    }
  }

  /** What a commit computes from a state and a closure, by way of the overlay. */
  method ExecuteOnOverlay<R>(state: Kv, closure: Closure<R>, steps: nat) returns (outcome: Executed<Kv, R>)
    ensures outcome == Meaning(closure, steps, state)
  {
    var provider := new ExternalitiesProvider(state);
    var drained := provider.ExecuteWithMut(closure, steps);
    match drained
    case Finished(changes, r) => outcome := Finished(Apply(state, changes), r);
    case TransactionCommitFailed => outcome := TransactionCommitFailed;
    case DrainFailed => outcome := DrainFailed;
    case StillRunning => outcome := StillRunning;
  }
}
