/** The genesis state of a builder, merged from storages one after the other.
 */
module Genesis {
  import opened Ledger

  type Key = string
  type Value = string
  type ChildInfo = string

  datatype Child = Child(data: map<Key, Value>, info: ChildInfo)

  datatype Storage = Storage(top: map<Key, Value>, children: map<Key, Child>)

  /** A storage to insert; its child tries in the order they are iterated, each under a key of its own. */
  datatype Source = Source(top: map<Key, Value>, children: seq<(Key, Child)>)

  const CODE: Key := ":code"

  ghost predicate DistinctKeys(children: seq<(Key, Child)>) {
    forall i, j :: 0 <= i < j < |children| ==> children[i].0 != children[j].0
  }

  /** Updating a child trie's description succeeds only where it changes nothing. */
  predicate TryUpdate(mine: ChildInfo, other: ChildInfo) {
    mine == other
  }

  // ---- One insertion ----

  /** A trie already there takes the new data before the descriptions are compared. */
  function InsertChild(children: map<Key, Child>, key: Key, other: Child): (bool, map<Key, Child>) {
    if key in children then
      var merged := Child(children[key].data + other.data, children[key].info);
      (TryUpdate(merged.info, other.info), children[key := merged])
    else (true, children[key := other])
  }

  function InsertChildren(children: map<Key, Child>, others: seq<(Key, Child)>, k: nat): (bool, map<Key, Child>)
    requires k <= |others|
    decreases |others| - k
  {
    if k == |others| then (true, children)
    else
      var (ok, merged) := InsertChild(children, others[k].0, others[k].1);
      if ok then InsertChildren(merged, others, k + 1) else (false, merged)
  }

  function Insert(s: Storage, source: Source): (bool, Storage) {
    var (ok, children) := InsertChildren(s.children, source.children, 0);
    (ok, Storage(s.top + source.top, children))
  }

  ghost predicate Compatible(children: map<Key, Child>, entry: (Key, Child)) {
    entry.0 in children ==> children[entry.0].info == entry.1.info
  }

  ghost function MergedChild(children: map<Key, Child>, entry: (Key, Child)): Child {
    if entry.0 in children then Child(children[entry.0].data + entry.1.data, children[entry.0].info) else entry.1
  }

  /** `after` is `children` with the entries from `k` up to `n` merged in, one by one independent. */
  ghost predicate Merged(children: map<Key, Child>, others: seq<(Key, Child)>, k: nat, n: nat, after: map<Key, Child>) {
    && k <= n <= |others|
    && (forall j :: k <= j < n ==> others[j].0 in after && after[others[j].0] == MergedChild(children, others[j]))
    && (forall key :: key in children ==> key in after)
    && (forall key :: key in after && (forall j :: k <= j < n ==> others[j].0 != key) ==>
          key in children && after[key] == children[key])
  }

  /** The position of the first entry that does not fit, or the number of entries. */
  ghost function FirstMisfit(children: map<Key, Child>, others: seq<(Key, Child)>, k: nat): (n: nat)
    requires k <= |others|
    ensures k <= n <= |others|
    ensures forall j :: k <= j < n ==> Compatible(children, others[j])
    ensures n < |others| ==> !Compatible(children, others[n])
    decreases |others| - k
  {
    if k < |others| && Compatible(children, others[k]) then FirstMisfit(children, others, k + 1) else k
  }

  lemma NothingMerged(children: map<Key, Child>, others: seq<(Key, Child)>, k: nat)
    requires k <= |others|
    ensures Merged(children, others, k, k, children)
  {
  }

  lemma MergedExtends(children: map<Key, Child>, others: seq<(Key, Child)>, k: nat, one: map<Key, Child>, n: nat,
                      after: map<Key, Child>)
    requires k < n && DistinctKeys(others) && k < |others|
    requires one == children[others[k].0 := MergedChild(children, others[k])] && Merged(one, others, k + 1, n, after)
    ensures Merged(children, others, k, n, after)
  {
    forall j | k < j < n ensures MergedChild(one, others[j]) == MergedChild(children, others[j]) {
      assert others[j].0 != others[k].0;
    }
    assert forall j :: k + 1 <= j < n ==> others[j].0 != others[k].0;
    assert others[k].0 in one;
    forall key | key in after && (forall j :: k <= j < n ==> others[j].0 != key)
      ensures key in children && after[key] == children[key]
    {
      assert key != others[k].0;
    }
  }

  lemma InsertChildMerges(children: map<Key, Child>, entry: (Key, Child))
    ensures InsertChild(children, entry.0, entry.1)
            == (Compatible(children, entry), children[entry.0 := MergedChild(children, entry)])
  {
  }

  /** How many entries are merged: all, or up to and including the first that does not fit. */
  ghost function Reached(children: map<Key, Child>, others: seq<(Key, Child)>, k: nat): nat
    requires k <= |others|
  {
    var n := FirstMisfit(children, others, k);
    if n < |others| then n + 1 else n
  }

  /** Insertion succeeds exactly when every child trie fits; when one does not, it and all before it
      have been merged and those after it have not. */
  lemma {:induction false} InsertMerges(children: map<Key, Child>, others: seq<(Key, Child)>, k: nat)
    requires k <= |others| && DistinctKeys(others)
    ensures var (ok, after) := InsertChildren(children, others, k);
            && (ok <==> FirstMisfit(children, others, k) == |others|)
            && Merged(children, others, k, Reached(children, others, k), after)
    decreases |others| - k
  {
    hide Merged, InsertChild, Compatible, MergedChild;
    if k == |others| {
      NothingMerged(children, others, k);
    } else {
      InsertChildMerges(children, others[k]);
      var (ok, one) := InsertChild(children, others[k].0, others[k].1);
      if ok {
        InsertMerges(one, others, k + 1);
        SameMisfit(children, one, others, k + 1, others[k].0);
        MergedExtends(children, others, k, one, Reached(one, others, k + 1), InsertChildren(one, others, k + 1).1);
      } else {
        NothingMerged(one, others, k + 1);
        MergedExtends(children, others, k, one, k + 1, one);
      }
    }
  }

  lemma {:induction false} SameMisfit(a: map<Key, Child>, b: map<Key, Child>, others: seq<(Key, Child)>, k: nat,
                                      key: Key)
    requires k <= |others| && forall j :: k <= j < |others| ==> others[j].0 != key
    requires key in b && b == a[key := b[key]]
    ensures FirstMisfit(a, others, k) == FirstMisfit(b, others, k)
    decreases |others| - k
  {
    if k < |others| {
      assert Compatible(a, others[k]) <==> Compatible(b, others[k]);
      SameMisfit(a, b, others, k + 1, key);
    }
  }

  // ---- What is read back ----

  ghost function Top(s: Storage, key: Key): Option<Value> {
    if key in s.top then Some(s.top[key]) else None
  }

  ghost function InTrie(s: Storage, trie: Key, key: Key): Option<Value> {
    if trie in s.children && key in s.children[trie].data then Some(s.children[trie].data[key]) else None
  }

  ghost function TopOf(source: Source, key: Key): Option<Value> {
    if key in source.top then Some(source.top[key]) else None
  }

  /** What the entries from `k` on hold for a key of a trie. */
  ghost function InTrieOf(children: seq<(Key, Child)>, k: nat, trie: Key, key: Key): (value: Option<Value>)
    requires k <= |children|
    ensures (forall j :: k <= j < |children| ==> children[j].0 != trie) ==> value.None?
    decreases |children| - k
  {
    if k == |children| then None
    else if children[k].0 == trie then (if key in children[k].1.data then Some(children[k].1.data[key]) else None)
    else InTrieOf(children, k + 1, trie, key)
  }

  lemma {:induction false} InTrieOfEntry(children: seq<(Key, Child)>, k: nat, j: nat, key: Key)
    requires k <= j < |children| && DistinctKeys(children)
    ensures var data := children[j].1.data;
            InTrieOf(children, k, children[j].0, key) == if key in data then Some(data[key]) else None
    decreases j - k
  {
    if k < j {
      InTrieOfEntry(children, k + 1, j, key);
    }
  }

  ghost function Over(newer: Option<Value>, older: Option<Value>): Option<Value> {
    if newer.Some? then newer else older
  }

  /** One insertion puts the source's values over what was there; the top even when it fails. */
  lemma InsertReads(s: Storage, source: Source, trie: Key, key: Key)
    requires DistinctKeys(source.children)
    ensures var (ok, after) := Insert(s, source);
            && Top(after, key) == Over(TopOf(source, key), Top(s, key))
            && (ok ==> InTrie(after, trie, key) == Over(InTrieOf(source.children, 0, trie, key), InTrie(s, trie, key)))
  {
    hide InsertChildren, FirstMisfit;
    InsertMerges(s.children, source.children, 0);
    if j :| 0 <= j < |source.children| && source.children[j].0 == trie {
      InTrieOfEntry(source.children, 0, j, key);
    }
  }

  function InsertAll(s: Storage, sources: seq<Source>): (bool, Storage)
    decreases |sources|
  {
    if sources == [] then (true, s)
    else
      var (ok, before) := InsertAll(s, sources[..|sources| - 1]);
      if ok then Insert(before, sources[|sources| - 1]) else (false, before)
  }

  ghost function LastTop(sources: seq<Source>, key: Key): Option<Value>
    decreases |sources|
  {
    if sources == [] then None
    else Over(TopOf(sources[|sources| - 1], key), LastTop(sources[..|sources| - 1], key))
  }

  ghost function LastInTrie(sources: seq<Source>, trie: Key, key: Key): Option<Value>
    decreases |sources|
  {
    if sources == [] then None
    else Over(InTrieOf(sources[|sources| - 1].children, 0, trie, key), LastInTrie(sources[..|sources| - 1], trie, key))
  }

  /** After any number of successful insertions every key, at the top or in a child trie, reads as the
      last source that held it wrote it; keys no source held read as at the start. */
  lemma {:induction false} LastWriterWins(s: Storage, sources: seq<Source>, trie: Key, key: Key)
    requires InsertAll(s, sources).0 && forall k :: 0 <= k < |sources| ==> DistinctKeys(sources[k].children)
    ensures var after := InsertAll(s, sources).1;
            && Top(after, key) == Over(LastTop(sources, key), Top(s, key))
            && InTrie(after, trie, key) == Over(LastInTrie(sources, trie, key), InTrie(s, trie, key))
    decreases |sources|
  {
    if sources != [] {
      var init, last := sources[..|sources| - 1], sources[|sources| - 1];
      LastWriterWins(s, init, trie, key);
      InsertReads(InsertAll(s, init).1, last, trie, key);
    }
  }

  const EMPTY: Storage := Storage(map[], map[])

  function CodeSource(code: Option<Value>): Source {
    Source(if code.Some? then map[CODE := code.value] else map[], [])
  }

  /** The code a provider starts from is the code of the genesis state exactly when the last source that
      holds one, if any does, holds the same. */
  lemma InitialCodeSurvives(code: Value, sources: seq<Source>)
    requires InsertAll(Insert(EMPTY, CodeSource(Some(code))).1, sources).0
    requires forall k :: 0 <= k < |sources| ==> DistinctKeys(sources[k].children)
    ensures var after := InsertAll(Insert(EMPTY, CodeSource(Some(code))).1, sources).1;
            && CODE in after.top
            && (after.top[CODE] == code <==> LastTop(sources, CODE).None? || LastTop(sources, CODE) == Some(code))
  {
    LastWriterWins(Insert(EMPTY, CodeSource(Some(code))).1, sources, CODE, CODE);
  }

  // ---- The provider ----

  class StateProvider {
    var top: map<Key, Value>
    var children: map<Key, Child>

    ghost function View(): Storage
      reads this
    {
      Storage(top, children)
    }

    constructor EmptyDefault(code: Option<Value>)
      ensures View() == Insert(EMPTY, CodeSource(code)).1
    {
      top, children := map[], map[];
      new;
      var ok := InsertStorage(CodeSource(code));
    }

    method InsertStorage(source: Source) returns (ok: bool)
      modifies this
      ensures (ok, View()) == Insert(old(View()), source)
    {
      ghost var start := children;
      top := top + source.top;
      var k := 0;
      while k < |source.children|
        invariant k <= |source.children| && top == old(top) + source.top
        invariant InsertChildren(start, source.children, 0) == InsertChildren(children, source.children, k)
      {
        var (key, other) := source.children[k];
        if key in children {
          var merged := children[key].data + other.data;
          children := children[key := Child(merged, children[key].info)];
          if !TryUpdate(children[key].info, other.info) {
            return false;
          }
        } else {
          children := children[key := other];
        }
        k := k + 1;
      }
      ok := true;
    }

    /** Without the code of a default provider: the source alone. */
    static method FromStorage(source: Source) returns (provider: Option<StateProvider>)
      ensures provider.Some? <==> Insert(EMPTY, source).0
      ensures provider.Some? ==> fresh(provider.value) && provider.value.View() == Insert(EMPTY, source).1
    {
      var empty := new StateProvider.EmptyDefault(None);
      assert empty.View() == EMPTY;
      var ok := empty.InsertStorage(source);
      provider := if ok then Some(empty) else None;
    }
  }
}
