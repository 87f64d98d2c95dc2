/** Waiting for a relay block: a status check and a subscription under the read half of the import
    lock, then a loop over notifications and a timeout; interleaved, step by step, with imports that
    insert and notify under the write half, with other waiters, and with the commits and reverts the
    builders make on the backend directly, which neither take the lock nor notify.
 */
module WaitForBlock {
  import opened Ledger

  type BlockHash = nat

  datatype Outcome = Found | WaitTimeout | ListenerClosed

  datatype Phase = Start | Locked | Unknown | Subscribed | Polling | Done(outcome: Outcome)

  datatype Waiter = Waiter(hash: BlockHash, phase: Phase, queue: seq<BlockHash>)

  datatype Stage = Entered | Inserted | Notified

  datatype Import = Import(hash: BlockHash, stage: Stage)

  /** `writer` and `readers` are the import lock.  `ever` (every block the chain has held) and `silent`
      (blocks of the chain a commit put there without a notification) are history variables. */
  datatype System = System(
    chain: set<BlockHash>,
    writer: Option<Import>,
    readers: set<nat>,
    waiters: seq<Waiter>,
    closed: bool,
    ever: set<BlockHash>,
    silent: set<BlockHash>)

  datatype Action =
    | Acquire(hash: BlockHash)
    | Insert
    | Notify
    | Release
    | Commit(hash: BlockHash)
    | Revert(hash: BlockHash)
    | Close
    | ReadLock(w: nat)
    | CheckStatus(w: nat)
    | Subscribe(w: nat)
    | ReadUnlock(w: nat)
    | Poll(w: nat)
    | TimeOut(w: nat)

  ghost predicate In(s: System, w: nat, phase: Phase) {
    w < |s.waiters| && s.waiters[w].phase == phase
  }

  ghost predicate Writing(s: System, stage: Stage) {
    s.writer.Some? && s.writer.value.stage == stage
  }

  ghost predicate Enabled(s: System, a: Action) {
    match a
    case Acquire(_) => s.writer.None? && s.readers == {}
    case Insert => Writing(s, Entered)
    case Notify => Writing(s, Inserted)
    // An import that fails releases the lock without having inserted.
    case Release => Writing(s, Entered) || Writing(s, Notified)
    case Commit(_) => true
    case Revert(_) => true
    case Close => true
    case ReadLock(w) => In(s, w, Start) && s.writer.None?
    case CheckStatus(w) => In(s, w, Locked)
    case Subscribe(w) => In(s, w, Unknown)
    case ReadUnlock(w) => In(s, w, Subscribed)
    case Poll(w) => In(s, w, Polling) && (s.waiters[w].queue != [] || s.closed)
    case TimeOut(w) => In(s, w, Polling)
  }

  ghost predicate Listening(w: Waiter) {
    w.phase.Subscribed? || w.phase.Polling?
  }

  ghost function Hear(w: Waiter, hash: BlockHash): Waiter {
    if Listening(w) then w.(queue := w.queue + [hash]) else w
  }

  ghost function HearAll(waiters: seq<Waiter>, hash: BlockHash): (heard: seq<Waiter>)
    ensures |heard| == |waiters|
    ensures forall w :: 0 <= w < |waiters| ==> heard[w] == Hear(waiters[w], hash)
  {
    seq(|waiters|, w requires 0 <= w < |waiters| => Hear(waiters[w], hash))
  }

  ghost function Move(s: System, w: nat, phase: Phase): System
    requires w < |s.waiters|
  {
    s.(waiters := s.waiters[w := s.waiters[w].(phase := phase)])
  }

  /** One turn of the loop: the next event decides, or is not the one waited for; a listener at its
      end decides too. */
  ghost function PollOnce(w: Waiter): Waiter {
    if w.queue == [] then w.(phase := Done(ListenerClosed))
    else w.(phase := if w.queue[0] == w.hash then Done(Found) else Polling, queue := w.queue[1..])
  }

  ghost function Step(s: System, a: Action): System
    requires Enabled(s, a)
  {
    match a
    case Acquire(hash) => s.(writer := Some(Import(hash, Entered)))
    case Insert =>
      var hash := s.writer.value.hash;
      s.(chain := s.chain + {hash}, ever := s.ever + {hash}, silent := s.silent - {hash},
         writer := Some(Import(hash, Inserted)))
    case Notify =>
      var hash := s.writer.value.hash;
      s.(waiters := if s.closed then s.waiters else HearAll(s.waiters, hash), writer := Some(Import(hash, Notified)))
    case Release => s.(writer := None)
    case Commit(hash) =>
      s.(chain := s.chain + {hash}, ever := s.ever + {hash},
         silent := if hash in s.chain then s.silent else s.silent + {hash})
    case Revert(hash) => s.(chain := s.chain - {hash}, silent := s.silent - {hash})
    case Close => s.(closed := true)
    case ReadLock(w) => Move(s, w, Locked).(readers := s.readers + {w})
    case CheckStatus(w) =>
      if s.waiters[w].hash in s.chain then Move(s, w, Done(Found)).(readers := s.readers - {w})
      else Move(s, w, Unknown)
    case Subscribe(w) => Move(s, w, Subscribed).(waiters := s.waiters[w := s.waiters[w].(phase := Subscribed,
        queue := [])])
    case ReadUnlock(w) => Move(s, w, Polling).(readers := s.readers - {w})
    case Poll(w) => s.(waiters := s.waiters[w := PollOnce(s.waiters[w])])
    case TimeOut(w) => Move(s, w, Done(WaitTimeout))
  }

  ghost predicate Runs(s: System, actions: seq<Action>)
    decreases |actions|
  {
    actions == [] || (Enabled(s, actions[0]) && Runs(Step(s, actions[0]), actions[1..]))
  }

  ghost function After(s: System, actions: seq<Action>): System
    requires Runs(s, actions)
    decreases |actions|
  {
    if actions == [] then s else After(Step(s, actions[0]), actions[1..])
  }

  ghost predicate Initial(s: System) {
    && s.writer.None? && s.readers == {} && s.ever == s.chain && s.silent == {} && !s.closed
    && forall w :: 0 <= w < |s.waiters| ==> s.waiters[w].phase.Start? && s.waiters[w].queue == []
  }

  // ---- What every interleaving keeps ----

  ghost predicate HoldsLock(phase: Phase) {
    phase.Locked? || phase.Unknown? || phase.Subscribed?
  }

  /** The block is in the chain, and not because of a commit. */
  ghost predicate Announced(s: System, hash: BlockHash) {
    hash in s.chain && hash !in s.silent
  }

  ghost predicate Safe(s: System, w: Waiter) {
    && (w.phase.Unknown? || w.phase.Subscribed? ==> !Announced(s, w.hash))
    && (w.phase.Subscribed? ==> w.queue == [])
    && (w.phase.Polling? && Announced(s, w.hash) ==>
          s.closed || w.hash in w.queue || s.writer == Some(Import(w.hash, Inserted)))
    && (w.phase == Done(Found) ==> w.hash in s.ever)
    && (w.phase == Done(ListenerClosed) ==> s.closed)
    && (forall k :: 0 <= k < |w.queue| ==> w.queue[k] in s.ever)
  }

  ghost predicate Good(s: System) {
    GoodLock(s) && forall w :: 0 <= w < |s.waiters| ==> OneSafe(s, w)
  }

  ghost predicate OneSafe(s: System, w: nat)
    requires w < |s.waiters|
  {
    Safe(s, s.waiters[w]) && (w in s.readers <==> HoldsLock(s.waiters[w].phase))
  }

  /** The waiter an action is a step of, if it is one's. */
  ghost predicate StepOf(a: Action, w: nat) {
    match a
    case ReadLock(v) => v == w
    case CheckStatus(v) => v == w
    case Subscribe(v) => v == w
    case ReadUnlock(v) => v == w
    case Poll(v) => v == w
    case TimeOut(v) => v == w
    case _ => false
  }

  lemma OwnStepKeepsSafe(s: System, a: Action, w: nat)
    requires Good(s) && Enabled(s, a) && w < |s.waiters| && StepOf(a, w)
    ensures OneSafe(Step(s, a), w)
  {
    assert OneSafe(s, w);
  }

  lemma OthersStepKeepsSafe(s: System, a: Action, w: nat)
    requires Good(s) && Enabled(s, a) && w < |s.waiters| && !StepOf(a, w) && !a.Notify?
    ensures OneSafe(Step(s, a), w)
  {
    assert OneSafe(s, w);
  }

  lemma NotifyKeepsSafe(s: System, w: nat)
    requires Good(s) && Enabled(s, Notify) && w < |s.waiters|
    ensures OneSafe(Step(s, Notify), w)
  {
    assert OneSafe(s, w);
  }

  ghost predicate GoodLock(s: System) {
    && s.chain <= s.ever && s.silent <= s.chain
    && (s.writer.Some? ==> s.readers == {})
    && (s.writer.Some? && !s.writer.value.stage.Entered? ==> s.writer.value.hash in s.ever)
  }

  lemma StepKeepsGoodLock(s: System, a: Action)
    requires GoodLock(s) && Enabled(s, a)
    ensures GoodLock(Step(s, a))
  {
  }

  lemma StepKeepsGood(s: System, a: Action)
    requires Good(s) && Enabled(s, a)
    ensures Good(Step(s, a))
  {
    hide Step, Enabled, Safe;
    StepKeepsGoodLock(s, a);
    StepKeepsWaiters(s, a);
    var t := Step(s, a);
    forall w | 0 <= w < |t.waiters| ensures OneSafe(t, w) {
      if StepOf(a, w) {
        OwnStepKeepsSafe(s, a, w);
      } else if a.Notify? {
        NotifyKeepsSafe(s, w);
      } else {
        OthersStepKeepsSafe(s, a, w);
      }
    }
  }

  lemma StepKeepsWaiters(s: System, a: Action)
    requires Enabled(s, a)
    ensures |Step(s, a).waiters| == |s.waiters|
  {
  }

  lemma {:induction false} RunKeepsGood(s: System, actions: seq<Action>)
    requires Good(s) && Runs(s, actions)
    ensures Good(After(s, actions))
    decreases |actions|
  {
    if actions != [] {
      StepKeepsGood(s, actions[0]);
      RunKeepsGood(Step(s, actions[0]), actions[1..]);
    }
  }

  ghost predicate NoCommits(actions: seq<Action>) {
    forall k :: 0 <= k < |actions| ==> !actions[k].Commit?
  }

  ghost predicate NoReverts(actions: seq<Action>) {
    forall k :: 0 <= k < |actions| ==> !actions[k].Revert?
  }

  lemma {:induction false} HistoryOfRun(s: System, actions: seq<Action>)
    requires Runs(s, actions)
    ensures NoReverts(actions) && s.ever == s.chain ==> After(s, actions).ever == After(s, actions).chain
    ensures NoCommits(actions) && s.silent == {} ==> After(s, actions).silent == {}
    decreases |actions|
  {
    if actions != [] {
      var t := Step(s, actions[0]);
      HistoryOfRun(t, actions[1..]);
      assert NoReverts(actions) ==> NoReverts(actions[1..]) && !actions[0].Revert?;
      assert NoCommits(actions) ==> NoCommits(actions[1..]) && !actions[0].Commit?;
    }
  }

  /** `Ok` is returned only for a block the chain holds or, where something was reverted, has held. */
  lemma FoundIsInChain(s: System, actions: seq<Action>, w: nat)
    requires Initial(s) && Runs(s, actions) && In(After(s, actions), w, Done(Found))
    ensures var t := After(s, actions);
            t.waiters[w].hash in t.ever && (NoReverts(actions) ==> t.waiters[w].hash in t.chain)
  {
    RunKeepsGood(s, actions);
    HistoryOfRun(s, actions);
    assert OneSafe(After(s, actions), w);
  }

  /** A closed listener is reported only once the listeners have closed. */
  lemma ClosedIsReported(s: System, actions: seq<Action>, w: nat)
    requires Initial(s) && Runs(s, actions) && In(After(s, actions), w, Done(ListenerClosed))
    ensures After(s, actions).closed
  {
    RunKeepsGood(s, actions);
    assert OneSafe(After(s, actions), w);
  }

  /** No wakeup is lost: a waiter still polling, on a listener still open and with no import half done,
      has the notification of its block in the listener's queue if the block is in the chain; the one
      way around it is a commit that put the block there. */
  lemma NoLostWakeup(s: System, actions: seq<Action>, w: nat)
    requires Initial(s) && Runs(s, actions) && In(After(s, actions), w, Polling)
    requires !After(s, actions).closed && !Writing(After(s, actions), Inserted)
    ensures var t := After(s, actions); var hash := t.waiters[w].hash;
            && (hash in t.chain ==> hash in t.waiters[w].queue || hash in t.silent)
            && (NoCommits(actions) ==> t.silent == {})
  {
    RunKeepsGood(s, actions);
    HistoryOfRun(s, actions);
    assert OneSafe(After(s, actions), w);
  }

  // ---- A queued notification decides ----

  function First(queue: seq<BlockHash>, hash: BlockHash): (k: nat)
    requires hash in queue
    ensures k < |queue| && queue[k] == hash && hash !in queue[..k]
  {
    if queue[0] == hash then 0 else 1 + First(queue[1..], hash)
  }

  ghost function Polls(w: nat, n: nat): (actions: seq<Action>)
    ensures |actions| == n
  {
    if n == 0 then [] else [Poll(w)] + Polls(w, n - 1)
  }

  /** Left to poll, the waiter skips exactly the other blocks in front of its own and returns `Ok`. */
  lemma {:induction false} QueuedIsFound(s: System, w: nat)
    requires In(s, w, Polling) && s.waiters[w].hash in s.waiters[w].queue
    ensures var n := First(s.waiters[w].queue, s.waiters[w].hash) + 1;
            && Runs(s, Polls(w, n)) && In(After(s, Polls(w, n)), w, Done(Found))
            && (forall m :: 0 < m < n ==> Runs(s, Polls(w, m)) && In(After(s, Polls(w, m)), w, Polling))
    decreases |s.waiters[w].queue|
  {
    var hash, queue := s.waiters[w].hash, s.waiters[w].queue;
    var t := Step(s, Poll(w));
    var n := First(queue, hash) + 1;
    assert Polls(w, n)[1..] == Polls(w, n - 1);
    if queue[0] != hash {
      QueuedIsFound(t, w);
      forall m | 0 < m < n ensures Runs(s, Polls(w, m)) && In(After(s, Polls(w, m)), w, Polling) {
        assert Polls(w, m)[1..] == Polls(w, m - 1);
      }
    }
  }

  /** Once the listeners have closed nobody hears anything more. */
  lemma {:induction false} ClosedHearsNothing(s: System, actions: seq<Action>, w: nat)
    requires s.closed && Runs(s, actions) && w < |s.waiters| && s.waiters[w].phase.Polling?
    ensures var t := After(s, actions); t.closed && |t.waiters| == |s.waiters|
    ensures After(s, actions).waiters[w].hash == s.waiters[w].hash
    ensures |After(s, actions).waiters[w].queue| <= |s.waiters[w].queue|
    decreases |actions|
  {
    if actions != [] {
      StepKeepsWaiters(s, actions[0]);
      var t := Step(s, actions[0]);
      if t.waiters[w].phase.Polling? {
        ClosedHearsNothing(t, actions[1..], w);
      } else {
        DoneStaysDone(t, actions[1..], w);
      }
    }
  }

  lemma {:induction false} DoneStaysDone(s: System, actions: seq<Action>, w: nat)
    requires Runs(s, actions) && w < |s.waiters| && s.waiters[w].phase.Done?
    ensures |After(s, actions).waiters| == |s.waiters| && After(s, actions).waiters[w] == s.waiters[w]
    ensures s.closed ==> After(s, actions).closed
    decreases |actions|
  {
    if actions != [] {
      StepKeepsWaiters(s, actions[0]);
      DoneStaysDone(Step(s, actions[0]), actions[1..], w);
    }
  }

  // ---- Where the guarantee ends ----

  lemma StartsPolling(s: System, w: nat)
    requires Initial(s) && w < |s.waiters| && s.waiters[w].hash !in s.chain
    ensures Enabled(s, ReadLock(w))
    ensures var s1 := Step(s, ReadLock(w)); Enabled(s1, CheckStatus(w))
    ensures var s2 := Step(Step(s, ReadLock(w)), CheckStatus(w)); Enabled(s2, Subscribe(w))
    ensures var s3 := Step(Step(Step(s, ReadLock(w)), CheckStatus(w)), Subscribe(w));
            Enabled(s3, ReadUnlock(w)) && Step(s3, ReadUnlock(w)) == Move(s, w, Polling)
  {
    var s3 := Step(Step(Step(s, ReadLock(w)), CheckStatus(w)), Subscribe(w));
    assert s3 == Move(s, w, Subscribed).(readers := {w});
  }

  /** A commit the builders make on the backend wakes nobody: whoever checked before it is not told,
      and times out on a block the chain holds. */
  lemma CommitWakesNobody(s: System, w: nat)
    requires Initial(s) && w < |s.waiters| && s.waiters[w].hash !in s.chain
    ensures var hash := s.waiters[w].hash;
            var actions := [ReadLock(w), CheckStatus(w), Subscribe(w), ReadUnlock(w), Commit(hash), TimeOut(w)];
            && Runs(s, actions)
            && In(After(s, actions), w, Done(WaitTimeout)) && hash in After(s, actions).chain
  {
    StartsPolling(s, w);
    var hash := s.waiters[w].hash;
    AfterSix(s, ReadLock(w), CheckStatus(w), Subscribe(w), ReadUnlock(w), Commit(hash), TimeOut(w));
  }

  /** The lock is what carries the guarantee: had the status been checked without it, an import between
      check and subscription would be neither seen nor heard. */
  lemma UncheckedLockLosesWakeup(hash: BlockHash)
    ensures var s := System({}, None, {}, [Waiter(hash, Unknown, [])], false, {}, {});
            var actions := [Acquire(hash), Insert, Notify, Release, Subscribe(0), ReadUnlock(0)];
            && Runs(s, actions) && In(After(s, actions), 0, Polling)
            && Announced(After(s, actions), hash) && After(s, actions).waiters[0].queue == []
  {
    var s := System({}, None, {}, [Waiter(hash, Unknown, [])], false, {}, {});
    var s1 := Step(s, Acquire(hash));
    var s2 := Step(s1, Insert);
    var s3 := Step(s2, Notify);
    var s4 := Step(s3, Release);
    var s5 := Step(s4, Subscribe(0));
    var s6 := Step(s5, ReadUnlock(0));
    AfterSix(s, Acquire(hash), Insert, Notify, Release, Subscribe(0), ReadUnlock(0));
    assert s6.waiters[0].queue == [];
  }

  ghost predicate SixEnabled(s: System, a: Action, b: Action, c: Action, d: Action, e: Action, f: Action) {
    && Enabled(s, a)
    && Enabled(Step(s, a), b)
    && Enabled(Step(Step(s, a), b), c)
    && Enabled(Step(Step(Step(s, a), b), c), d)
    && Enabled(Step(Step(Step(Step(s, a), b), c), d), e)
    && Enabled(Step(Step(Step(Step(Step(s, a), b), c), d), e), f)
  }

  lemma AfterFirst(s: System, a: Action, rest: seq<Action>)
    requires Enabled(s, a) && Runs(Step(s, a), rest)
    ensures Runs(s, [a] + rest) && After(s, [a] + rest) == After(Step(s, a), rest)
  {
    assert ([a] + rest)[1..] == rest;
  }

  lemma AfterSix(s: System, a: Action, b: Action, c: Action, d: Action, e: Action, f: Action)
    requires SixEnabled(s, a, b, c, d, e, f)
    ensures Runs(s, [a, b, c, d, e, f])
    ensures After(s, [a, b, c, d, e, f]) == Step(Step(Step(Step(Step(Step(s, a), b), c), d), e), f)
  {
    hide Step, Enabled;
    var s1 := Step(s, a);
    var s2 := Step(s1, b);
    var s3 := Step(s2, c);
    var s4 := Step(s3, d);
    var s5 := Step(s4, e);
    AfterFirst(s5, f, []);
    assert [f] + [] == [f];
    AfterFirst(s4, e, [f]);
    assert [e] + [f] == [e, f];
    AfterFirst(s3, d, [e, f]);
    assert [d] + [e, f] == [d, e, f];
    AfterFirst(s2, c, [d, e, f]);
    assert [c] + [d, e, f] == [c, d, e, f];
    AfterFirst(s1, b, [c, d, e, f]);
    assert [b] + [c, d, e, f] == [b, c, d, e, f];
    AfterFirst(s, a, [b, c, d, e, f]);
    assert [a] + [b, c, d, e, f] == [a, b, c, d, e, f];
  }

  // ---- The waiter's own loop ----

  datatype Event = TimedOut | Heard(hash: BlockHash) | Ended

  predicate Decides(event: Event, hash: BlockHash) {
    !event.Heard? || event.hash == hash
  }

  /** Event `k` is the first that decides. */
  ghost predicate FirstDecides(events: seq<Event>, hash: BlockHash, k: int) {
    0 <= k < |events| && Decides(events[k], hash) && forall j :: 0 <= j < k ==> !Decides(events[j], hash)
  }

  /** What a waiter left to poll comes to; with its queue used up it waits for more unless the listener
      is closed. */
  ghost function Polled(w: Waiter, closed: bool): Option<Outcome>
    decreases |w.queue|, !w.phase.Done?
  {
    if w.phase.Done? then Some(w.phase.outcome)
    else if w.queue == [] && !closed then None
    else Polled(PollOnce(w), closed)
  }

  /** The events of a listener that delivers these blocks. */
  ghost function Stream(queue: seq<BlockHash>, closed: bool): (events: seq<Event>)
    ensures |events| == |queue| + if closed then 1 else 0
    ensures forall k :: 0 <= k < |queue| ==> events[k] == Heard(queue[k])
    ensures closed ==> events[|queue|] == Ended
  {
    if queue == [] then if closed then [Ended] else [] else [Heard(queue[0])] + Stream(queue[1..], closed)
  }

  /** The first deciding event of a listener's stream is what polling comes to. */
  lemma {:induction false} PollingDecides(hash: BlockHash, queue: seq<BlockHash>, closed: bool)
    ensures Polled(Waiter(hash, Polling, queue), closed)
            == if hash in queue then Some(Found) else if closed then Some(ListenerClosed) else None
    decreases |queue|
  {
    if queue != [] && queue[0] != hash {
      PollingDecides(hash, queue[1..], closed);
    }
  }

  lemma DecidedBy(events: seq<Event>, hash: BlockHash, k: int)
    requires FirstDecides(events, hash, k)
    ensures forall n :: FirstDecides(events, hash, n) ==> n == k
    ensures forall queue, closed :: events == Stream(queue, closed) ==>
              !events[k].TimedOut?
              && Polled(Waiter(hash, Polling, queue), closed)
                   == Some(if events[k].Heard? then Found else ListenerClosed)
  {
    forall queue, closed | events == Stream(queue, closed)
      ensures !events[k].TimedOut?
      ensures Polled(Waiter(hash, Polling, queue), closed) == Some(if events[k].Heard? then Found else ListenerClosed)
    {
      PollingDecides(hash, queue, closed);
      if k < |queue| {
        assert queue[k] == hash;
      } else if hash in queue {
        var j :| 0 <= j < |queue| && queue[j] == hash;
        assert Decides(events[j], hash);
      }
    }
  }

  lemma Undecided(events: seq<Event>, hash: BlockHash)
    requires forall k :: 0 <= k < |events| ==> !Decides(events[k], hash)
    ensures forall queue, closed :: events == Stream(queue, closed) ==>
              Polled(Waiter(hash, Polling, queue), closed) == None
  {
    forall queue, closed | events == Stream(queue, closed)
      ensures Polled(Waiter(hash, Polling, queue), closed) == None
    {
      PollingDecides(hash, queue, closed);
      if hash in queue {
        var j :| 0 <= j < |queue| && queue[j] == hash;
        assert Decides(events[j], hash);
      }
      assert closed ==> Decides(events[|queue|], hash);
    }
  }

  /** The call as its caller sees it.  It ends in `Found` exactly when the chain holds the block or its
      notification comes before the timeout and the end of the listener, and in either of those exactly
      when that comes first; until then it waits.  On a listener's stream it answers as the waiter of the
      interleaved model does, polling. */
  method WaitForBlock(hash: BlockHash, chain: set<BlockHash>, events: seq<Event>) returns (outcome: Option<Outcome>)
    ensures outcome == Some(Found) <==>
            hash in chain || exists k :: FirstDecides(events, hash, k) && events[k] == Heard(hash)
    ensures outcome == Some(WaitTimeout) <==>
            hash !in chain && exists k :: FirstDecides(events, hash, k) && events[k] == TimedOut
    ensures outcome == Some(ListenerClosed) <==>
            hash !in chain && exists k :: FirstDecides(events, hash, k) && events[k] == Ended
    ensures outcome == None <==> hash !in chain && forall k :: 0 <= k < |events| ==> !Decides(events[k], hash)
    ensures forall queue, closed :: hash !in chain && events == Stream(queue, closed) ==>
              outcome == Polled(Waiter(hash, Polling, queue), closed)
  {
    if hash in chain {
      return Some(Found);
    }
    var k := 0;
    while k < |events|
      invariant 0 <= k <= |events|
      invariant forall j :: 0 <= j < k ==> !Decides(events[j], hash)
    {
      if Decides(events[k], hash) {
        DecidedBy(events, hash, k);
      }
      match events[k] {
        case TimedOut => return Some(WaitTimeout);
        case Heard(heard) =>
          if heard == hash {
            return Some(Found);
          }
        case Ended => return Some(ListenerClosed);
      }
      k := k + 1;
    }
    Undecided(events, hash);
    outcome := None;
  }
}
