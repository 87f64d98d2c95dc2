/** The relay-chain storage items the builders write: the `Paras` and `ParaInclusion` entries touched
    by onboarding and by forced enactment, and what those writes keep true. */
module ParasStorage {
  import opened Ledger
  import opened Externalities

  type Id = nat
  type Code = string
  type CodeHash = nat

  /** Head data is the encoding of a parachain header; the encoding is taken to be faithful. */
  type HeadData = Header<Kv>

  const ZERO_HASH: CodeHash := 0

  datatype Lifecycle = Onboarding | Parathread | Parachain

  /** A candidate pending availability, as injected by the relay-chain builder. */
  datatype Candidate = Candidate(core: nat, id: Id, paraHead: HeadData, relayParentNumber: nat, backedInNumber: nat)

  /** `CurrentCodeHash`, `PastCodeHash`, `CodeByHash` and `CodeByHashRefs`. */
  datatype Codes = Codes(
    current: map<Id, CodeHash>,
    past: map<(Id, nat), CodeHash>,
    byHash: map<CodeHash, Code>,
    refs: map<CodeHash, nat>)

  datatype RelayStorage = RelayStorage(
    number: nat,
    parachains: seq<Id>,
    heads: map<Id, HeadData>,
    codes: Codes,
    lifecycles: map<Id, Lifecycle>,
    pendingCommitments: map<Id, HeadData>,
    pendingAvailability: map<Id, Candidate>,
    other: Kv)

  // ---- The list of parachains ----

  function Insert(xs: seq<Id>, x: Id): seq<Id> {
    if xs == [] then [x]
    else if x <= xs[0] then [x] + xs
    else [xs[0]] + Insert(xs[1..], x)
  }

  function Sort(xs: seq<Id>): seq<Id> {
    if xs == [] then [] else Insert(Sort(xs[..|xs| - 1]), xs[|xs| - 1])
  }

  function AddParachain(paras: seq<Id>, id: Id): seq<Id> {
    if id in paras then paras else Sort(paras + [id])
  }

  ghost predicate StrictlySorted(xs: seq<Id>) {
    forall i, j :: 0 <= i < j < |xs| ==> xs[i] < xs[j]
  }

  lemma {:induction false} InsertIntoSorted(xs: seq<Id>, x: Id)
    requires StrictlySorted(xs) && x !in xs
    ensures StrictlySorted(Insert(xs, x))
    ensures forall y :: y in Insert(xs, x) <==> y in xs || y == x
  {
    if xs != [] && xs[0] < x {
      var rest := xs[1..];
      InsertIntoSorted(rest, x);
      var after := Insert(rest, x);
      forall j | 0 <= j < |after| ensures xs[0] < after[j] {
        assert after[j] in after;
      }
      assert xs == [xs[0]] + rest;
    }
  }

  lemma {:induction false} SortOfSorted(xs: seq<Id>)
    requires StrictlySorted(xs)
    ensures Sort(xs) == xs
  {
    if xs != [] {
      var front, x := xs[..|xs| - 1], xs[|xs| - 1];
      SortOfSorted(front);
      InsertAtEnd(front, x);
      assert front + [x] == xs;
    }
  }

  lemma {:induction false} InsertAtEnd(xs: seq<Id>, x: Id)
    requires forall k :: 0 <= k < |xs| ==> xs[k] < x
    ensures Insert(xs, x) == xs + [x]
  {
    if xs != [] {
      InsertAtEnd(xs[1..], x);
      assert [xs[0]] + (xs[1..] + [x]) == xs + [x];
    }
  }

  lemma {:induction false} InsertMembers(xs: seq<Id>, x: Id)
    ensures forall y :: y in Insert(xs, x) <==> y in xs || y == x
  {
    if xs != [] {
      InsertMembers(xs[1..], x);
    }
  }

  lemma {:induction false} SortMembers(xs: seq<Id>)
    ensures forall y :: y in Sort(xs) <==> y in xs
  {
    if xs != [] {
      SortMembers(xs[..|xs| - 1]);
      InsertMembers(Sort(xs[..|xs| - 1]), xs[|xs| - 1]);
    }
  }

  ghost predicate Sorted(xs: seq<Id>) {
    forall i, j :: 0 <= i < j < |xs| ==> xs[i] <= xs[j]
  }

  lemma {:induction false} InsertSorts(xs: seq<Id>, x: Id)
    requires Sorted(xs)
    ensures Sorted(Insert(xs, x)) && multiset(Insert(xs, x)) == multiset(xs) + multiset{x}
  {
    if xs == [] {
    } else if x <= xs[0] {
    } else {
      var rest := xs[1..];
      InsertSorts(rest, x);
      InsertMembers(rest, x);
      assert xs == [xs[0]] + rest;
      var after := Insert(rest, x);
      forall j | 0 <= j < |after| ensures xs[0] <= after[j] {
        assert after[j] in after;
      }
    }
  }

  /** Sorting any list orders it and keeps every element as often as it was there. */
  lemma {:induction false} SortSorts(xs: seq<Id>)
    ensures Sorted(Sort(xs)) && multiset(Sort(xs)) == multiset(xs)
  {
    if xs != [] {
      var front, x := xs[..|xs| - 1], xs[|xs| - 1];
      SortSorts(front);
      InsertSorts(Sort(front), x);
      assert xs == front + [x];
    }
  }

  /** However the list grows, it stays strictly sorted and gains exactly the new id. */
  lemma AddParachainKeepsSorted(paras: seq<Id>, id: Id)
    requires StrictlySorted(paras)
    ensures StrictlySorted(AddParachain(paras, id))
    ensures forall y :: y in AddParachain(paras, id) <==> y in paras || y == id
  {
    if id !in paras {
      assert (paras + [id])[..|paras|] == paras;
      SortOfSorted(paras);
      InsertIntoSorted(paras, id);
    }
  }

  function Position(xs: seq<Id>, id: Id): (p: Option<nat>)
    ensures p.Some? <==> id in xs
    ensures p.Some? ==> p.value < |xs| && xs[p.value] == id
    ensures p.Some? ==> id !in xs[..p.value]
  {
    if xs == [] then None
    else if xs[0] == id then Some(0)
    else
      var rest := Position(xs[1..], id);
      if rest.None? then None
      else
        assert xs[..rest.value + 1] == [xs[0]] + xs[1..][..rest.value];
        Some(rest.value + 1)
  }

  ghost function Below(xs: seq<Id>, id: Id): set<Id> {
    set x | x in xs && x < id
  }

  /** The core assigned to a parachain is its rank among all onboarded ids. */
  lemma {:induction false} PositionIsRank(xs: seq<Id>, id: Id)
    requires StrictlySorted(xs) && id in xs
    ensures Position(xs, id) == Some(|Below(xs, id)|)
  {
    var p := Position(xs, id).value;
    PrefixSize(xs, p);
    assert Below(xs, id) == Elements(xs[..p]) by {
      forall x ensures x in Below(xs, id) <==> x in xs[..p] {
        if x in xs && x < id {
          var k :| 0 <= k < |xs| && xs[k] == x;
          assert k < p;
          assert xs[..p][k] == x;
        }
        if x in xs[..p] {
          var k :| 0 <= k < p && xs[k] == x;
        }
      }
    }
  }

  ghost function Elements(xs: seq<Id>): set<Id> {
    set x | x in xs
  }

  lemma ElementsOfAppend(front: seq<Id>, x: Id)
    requires x !in front
    ensures |Elements(front + [x])| == |Elements(front)| + 1
  {
    assert Elements(front + [x]) == Elements(front) + {x};
  }

  lemma {:induction false} PrefixSize(xs: seq<Id>, p: nat)
    requires StrictlySorted(xs) && p <= |xs|
    ensures |Elements(xs[..p])| == p
  {
    if p > 0 {
      PrefixSize(xs, p - 1);
      hide Elements;
      var front, x := xs[..p - 1], xs[p - 1];
      assert xs[..p] == front + [x];
      ElementsOfAppend(front, x);
    }
  }

  // ---- Onboarding ----

  function OnboardCode(c: Codes, number: nat, id: Id, code: Code, hash: Code -> CodeHash): Codes {
    var archived := if id in c.current then c.(past := c.past[(id, number) := c.current[id]]) else c;
    var current := if id in c.current then c.current[id] else ZERO_HASH;
    var h := hash(code);
    if current == h then archived
    else
      var refs := if h in c.refs then c.refs[h] else 0;
      Codes(c.current[id := h], archived.past, c.byHash[h := code], c.refs[h := if refs == 0 then 1 else refs])
  }

  function Onboard(s: RelayStorage, id: Id, head: HeadData, code: Code, hash: Code -> CodeHash): RelayStorage {
    s.(parachains := AddParachain(s.parachains, id),
       codes := OnboardCode(s.codes, s.number, id, code, hash),
       lifecycles := s.lifecycles[id := Parachain],
       heads := s.heads[id := head])
  }

  ghost predicate Resolves(c: Codes, hash: Code -> CodeHash, h: CodeHash) {
    && h in c.byHash && hash(c.byHash[h]) == h
    && h in c.refs && c.refs[h] >= 1
  }

  ghost predicate CodesResolve(c: Codes, hash: Code -> CodeHash) {
    && (forall id :: id in c.current ==> Resolves(c, hash, c.current[id]))
    && (forall at :: at in c.past ==> Resolves(c, hash, c.past[at]))
  }

  datatype Request = Request(number: nat, id: Id, head: HeadData, code: Code)

  /** Onboardings one after another, each at some block number. */
  function OnboardAll(s: RelayStorage, requests: seq<Request>, hash: Code -> CodeHash): RelayStorage {
    if requests == [] then s
    else
      var r := requests[|requests| - 1];
      var before := OnboardAll(s, requests[..|requests| - 1], hash);
      Onboard(before.(number := r.number), r.id, r.head, r.code, hash)
  }

  lemma OnboardKeepsCodes(c: Codes, number: nat, id: Id, code: Code, hash: Code -> CodeHash)
    requires CodesResolve(c, hash)
    ensures CodesResolve(OnboardCode(c, number, id, code, hash), hash)
  {
    var after := OnboardCode(c, number, id, code, hash);
    forall h | Resolves(c, hash, h) ensures Resolves(after, hash, h) {}
  }

  /** Over any onboardings, re-onboardings and shared codes: every current and every archived hash
      resolves to code with that hash and is referenced. */
  lemma {:induction false} OnboardingsKeepCodes(s: RelayStorage, requests: seq<Request>, hash: Code -> CodeHash)
    requires CodesResolve(s.codes, hash)
    ensures CodesResolve(OnboardAll(s, requests, hash).codes, hash)
  {
    if requests != [] {
      var front, r := requests[..|requests| - 1], requests[|requests| - 1];
      OnboardingsKeepCodes(s, front, hash);
      OnboardKeepsCodes(OnboardAll(s, front, hash).codes, r.number, r.id, r.code, hash);
    }
  }

  /** Over any onboardings the list stays strictly sorted and lists exactly the ids it held or was asked for. */
  lemma {:induction false} OnboardingsKeepSorted(s: RelayStorage, requests: seq<Request>, hash: Code -> CodeHash)
    requires StrictlySorted(s.parachains)
    ensures StrictlySorted(OnboardAll(s, requests, hash).parachains)
    ensures forall id :: id in OnboardAll(s, requests, hash).parachains <==> id in s.parachains || Asked(requests, id)
  {
    if requests != [] {
      var front, r := requests[..|requests| - 1], requests[|requests| - 1];
      OnboardingsKeepSorted(s, front, hash);
      AddParachainKeepsSorted(OnboardAll(s, front, hash).parachains, r.id);
      forall id ensures Asked(requests, id) <==> Asked(front, id) || id == r.id {
        assert requests == front + [r];
      }
    }
  }

  ghost predicate Asked(requests: seq<Request>, id: Id) {
    exists i :: 0 <= i < |requests| && requests[i].id == id
  }

  /** An onboarded id has a current code hash exactly when it had one before or some onboarding
      brought code that does not hash to zero: the one code the comparison with the default loses. */
  lemma {:induction false} HasCodeUnlessZero(s: RelayStorage, requests: seq<Request>, hash: Code -> CodeHash, id: Id)
    ensures id in OnboardAll(s, requests, hash).codes.current <==>
            id in s.codes.current || BroughtCode(requests, hash, id)
  {
    if requests != [] {
      var front, r := requests[..|requests| - 1], requests[|requests| - 1];
      HasCodeUnlessZero(s, front, hash, id);
      assert BroughtCode(requests, hash, id) <==>
             BroughtCode(front, hash, id) || (r.id == id && hash(r.code) != ZERO_HASH) by {
        assert requests == front + [r];
      }
    }
  }

  ghost predicate BroughtCode(requests: seq<Request>, hash: Code -> CodeHash, id: Id) {
    exists i :: 0 <= i < |requests| && requests[i].id == id && hash(requests[i].code) != ZERO_HASH
  }

  /** The last request of an id. */
  ghost function LastOf(requests: seq<Request>, id: Id): (r: Request)
    requires Asked(requests, id)
    ensures r in requests && r.id == id
  {
    if requests[|requests| - 1].id == id then requests[|requests| - 1]
    else
      assert Asked(requests[..|requests| - 1], id) by {
        var i :| 0 <= i < |requests| && requests[i].id == id;
        assert requests[..|requests| - 1][i] == requests[i];
      }
      LastOf(requests[..|requests| - 1], id)
  }

  lemma AskedLast(requests: seq<Request>, id: Id)
    requires requests != []
    ensures var front, r := requests[..|requests| - 1], requests[|requests| - 1];
            Asked(requests, id) <==> Asked(front, id) || r.id == id
  {
    assert requests == requests[..|requests| - 1] + [requests[|requests| - 1]];
  }

  /** What onboardings write for one id: asked for, it is a parachain with the head last asked for; not
      asked for, it has what it had. */
  lemma {:induction false} OnboardingsWrite(s: RelayStorage, requests: seq<Request>, hash: Code -> CodeHash, id: Id)
    ensures var after := OnboardAll(s, requests, hash);
            if Asked(requests, id) then
              && id in after.lifecycles && after.lifecycles[id] == Parachain
              && id in after.heads && after.heads[id] == LastOf(requests, id).head
            else
              && (id in after.lifecycles <==> id in s.lifecycles)
              && (id in s.lifecycles ==> after.lifecycles[id] == s.lifecycles[id])
              && (id in after.heads <==> id in s.heads) && (id in s.heads ==> after.heads[id] == s.heads[id])
              && (id in after.codes.current <==> id in s.codes.current)
              && (id in s.codes.current ==> after.codes.current[id] == s.codes.current[id])
    ensures var after := OnboardAll(s, requests, hash);
            && after.pendingCommitments == s.pendingCommitments && after.pendingAvailability == s.pendingAvailability
            && after.other == s.other
            && after.number == if requests == [] then s.number else requests[|requests| - 1].number
  {
    if requests != [] {
      OnboardingsWrite(s, requests[..|requests| - 1], hash, id);
      AskedLast(requests, id);
    }
  }

  /** The current code hash of an id asked for, where it has one, is that of the code it brought last, zero
      included. */
  lemma {:induction false} CurrentCodeIsLastBrought(s: RelayStorage, requests: seq<Request>, hash: Code -> CodeHash,
                                                    id: Id)
    requires Asked(requests, id) && id in OnboardAll(s, requests, hash).codes.current
    ensures OnboardAll(s, requests, hash).codes.current[id] == hash(LastOf(requests, id).code)
  {
    var front, r := requests[..|requests| - 1], requests[|requests| - 1];
    AskedLast(requests, id);
    if r.id != id {
      CurrentCodeIsLastBrought(s, front, hash, id);
    }
  }

  /** Request `i` finds a code hash to archive under `at`. */
  ghost predicate Archives(s: RelayStorage, requests: seq<Request>, hash: Code -> CodeHash, at: (Id, nat), i: nat)
    requires i < |requests|
  {
    && requests[i].id == at.0 && requests[i].number == at.1
    && at.0 in OnboardAll(s, requests[..i], hash).codes.current
  }

  /** A past entry is the hash that was current before the last request of that id in that block, or what
      was there before. */
  lemma {:induction false} PastCodeIsLastArchived(s: RelayStorage, requests: seq<Request>, hash: Code -> CodeHash,
                                                  at: (Id, nat), n: nat)
    requires n <= |requests| && forall i :: n <= i < |requests| ==> !Archives(s, requests, hash, at, i)
    requires n > 0 ==> Archives(s, requests, hash, at, n - 1)
    ensures var after := OnboardAll(s, requests, hash).codes.past;
            if n > 0 then at in after && after[at] == OnboardAll(s, requests[..n - 1], hash).codes.current[at.0]
            else (at in after <==> at in s.codes.past) && (at in after ==> after[at] == s.codes.past[at])
    decreases |requests| - n
  {
    if n < |requests| {
      var front := requests[..|requests| - 1];
      assert !Archives(s, requests, hash, at, |requests| - 1);
      forall i | 0 <= i < |front| ensures Archives(s, front, hash, at, i) <==> Archives(s, requests, hash, at, i) {
        assert front[..i] == requests[..i];
      }
      PastCodeIsLastArchived(s, front, hash, at, n);
      if n > 0 {
        assert front[..n - 1] == requests[..n - 1];
      }
    }
  }

  ghost function References(c: Codes, h: CodeHash): nat {
    if h in c.refs then c.refs[h] else 0
  }

  /** However often a code is brought it is counted once; a count that was there stays. */
  lemma {:induction false} ReferencesCountOnce(s: RelayStorage, requests: seq<Request>, hash: Code -> CodeHash,
                                               h: CodeHash)
    ensures var before, after := References(s.codes, h), References(OnboardAll(s, requests, hash).codes, h);
            after == before || (before == 0 && after == 1 && Brought(requests, hash, h))
  {
    if requests != [] {
      var front, r := requests[..|requests| - 1], requests[|requests| - 1];
      ReferencesCountOnce(s, front, hash, h);
      assert Brought(requests, hash, h) <==> Brought(front, hash, h) || hash(r.code) == h by {
        assert requests == front + [r];
      }
    }
  }

  ghost predicate Brought(requests: seq<Request>, hash: Code -> CodeHash, h: CodeHash) {
    exists i :: 0 <= i < |requests| && hash(requests[i].code) == h
  }

  /** Code already filed is refiled only by code with the same hash. */
  lemma {:induction false} FiledCodeIsBrought(s: RelayStorage, requests: seq<Request>, hash: Code -> CodeHash,
                                              h: CodeHash)
    ensures var before, after := s.codes.byHash, OnboardAll(s, requests, hash).codes.byHash;
            && (h in before ==> h in after)
            && (h in after && !(h in before && after[h] == before[h]) ==>
                  hash(after[h]) == h && Brought(requests, hash, h))
  {
    if requests != [] {
      var front, r := requests[..|requests| - 1], requests[|requests| - 1];
      FiledCodeIsBrought(s, front, hash, h);
      assert Brought(requests, hash, h) <==> Brought(front, hash, h) || hash(r.code) == h by {
        assert requests == front + [r];
      }
    }
  }

  // ---- Forced enactment ----

  datatype EnactError = CodeHashRetrieval | CodeHashNotFound | NotOnboarded

  /** The closure of `force_enact_collations`.  Its own error value does not undo what it wrote:
      the second component is committed either way.  `parent` is the state of the captured parent as far
      as the backend can still serve it while the closure runs. */
  function EnactClosure(s: RelayStorage, parent: Option<RelayStorage>, id: Id, head: HeadData,
                        parentNumber: nat, generationNumber: nat): (Option<EnactError>, RelayStorage, Option<Candidate>)
  {
    var injected := s.(pendingCommitments := s.pendingCommitments[id := head]);
    if parent.None? then (Some(CodeHashRetrieval), injected, None)
    else if id !in parent.value.codes.current then (Some(CodeHashNotFound), injected, None)
    else
      var core := Position(s.parachains, id);
      if core.None? then (Some(NotOnboarded), injected, None)
      else
        var candidate := Candidate(core.value, id, head, parentNumber, generationNumber);
        (None, EnactIncluded(injected.(pendingAvailability := s.pendingAvailability[id := candidate]), id),
            Some(candidate))
  }

  /** Runtime contract: asking for the validation data of an included candidate consumes the pending
      entries and makes the committed head the current one. */
  function EnactIncluded(s: RelayStorage, id: Id): RelayStorage
    requires id in s.pendingCommitments
  {
    s.(heads := s.heads[id := s.pendingCommitments[id]],
       pendingCommitments := s.pendingCommitments - {id},
       pendingAvailability := s.pendingAvailability - {id})
  }

  /** How the closure ends, and what it leaves: on each of its errors the commitments it injected and
      nothing else; on success the head enacted and neither entry left pending. */
  lemma EnactClosureEnds(s: RelayStorage, parent: Option<RelayStorage>, id: Id, head: HeadData, parentNumber: nat,
                         generationNumber: nat)
    ensures var (error, post, candidate) := EnactClosure(s, parent, id, head, parentNumber, generationNumber);
            && (error == Some(CodeHashRetrieval) <==> parent.None?)
            && (error == Some(CodeHashNotFound) <==> parent.Some? && id !in parent.value.codes.current)
            && (error == Some(NotOnboarded)
                <==> parent.Some? && id in parent.value.codes.current && id !in s.parachains)
            && (error.Some? ==> candidate.None? && post == s.(pendingCommitments := s.pendingCommitments[id := head]))
            && (error.None? ==>
                  && candidate.Some? && candidate.value.id == id && candidate.value.paraHead == head
                  && candidate.value.relayParentNumber == parentNumber
                  && candidate.value.backedInNumber == generationNumber
                  && post.heads == s.heads[id := head]
                  && post.pendingCommitments == s.pendingCommitments - {id}
                  && post.pendingAvailability == s.pendingAvailability - {id}
                  && post == s.(heads := post.heads, pendingCommitments := post.pendingCommitments,
                                pendingAvailability := post.pendingAvailability))
  {
  }
}
