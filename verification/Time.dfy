/** Timestamps, the registry of shared time providers, and the Aura slots derived from them. */
module Time {
  const U64_MAX: nat := 0xFFFF_FFFF_FFFF_FFFF
  const U128_MAX: nat := 0xFFFF_FFFF_FFFF_FFFF_FFFF_FFFF_FFFF_FFFF
  const COUNTER_RANGE: nat := 0x1_0000_0000_0000_0000
  const NANOS_PER_MILLI: nat := 1_000_000

  type InstanceId = nat

  /** Durations are in nanoseconds. */
  datatype Provider = Provider(id: InstanceId, start: nat, delta: nat, ticks: nat)

  /** The bounds are those of 64 and 128 bits, and the counter's range is the former. */
  lemma Bounds()
    ensures COUNTER_RANGE == U64_MAX + 1 == 0x1_0000 * 0x1_0000 * 0x1_0000 * 0x1_0000
    ensures U128_MAX + 1 == COUNTER_RANGE * COUNTER_RANGE
  {
  }

  // ---- current_time ----

  function Min(a: nat, b: nat): nat {
    if a <= b then a else b
  }

  function AsMillis(nanos: nat): nat {
    nanos / NANOS_PER_MILLI
  }

  /** A duration of so many seconds, milliseconds and nanoseconds counts as its whole milliseconds. */
  lemma MillisOfDuration(seconds: nat, millis: nat, nanos: nat)
    requires millis < 1_000 && nanos < 1_000_000
    ensures AsMillis(seconds * 1_000_000_000 + millis * 1_000_000 + nanos) == seconds * 1_000 + millis
  {
  }

  function SaturatingMul(a: nat, b: nat): nat {
    Min(a * b, U128_MAX)
  }

  function SaturatingAdd(a: nat, b: nat): nat {
    Min(a + b, U128_MAX)
  }

  function CurrentTime(p: Provider): nat {
    var delta := SaturatingMul(AsMillis(p.delta), p.ticks);
    var timestamp := SaturatingAdd(AsMillis(p.start), delta);
    Min(timestamp, U64_MAX)
  }

  /** The time before the narrowing to 64 bits. */
  function Elapsed(p: Provider): nat {
    AsMillis(p.start) + AsMillis(p.delta) * p.ticks
  }

  /** The three saturations amount to one. */
  lemma CurrentTimeIsMin(p: Provider)
    ensures CurrentTime(p) == Min(U64_MAX, Elapsed(p))
  {
  }

  lemma TimesMonotone(a: nat, b: nat, c: nat)
    requires b <= c
    ensures a * b <= a * c
  {
    assert a * c == a * b + a * (c - b);
  }

  lemma CurrentTimeIsMonotone(p: Provider, ticks: nat)
    requires p.ticks <= ticks
    ensures CurrentTime(p) <= CurrentTime(p.(ticks := ticks))
  {
    TimesMonotone(AsMillis(p.delta), p.ticks, ticks);
  }

  /** The whole milliseconds of the exact time `start + delta * ticks`. */
  function ExactMillis(p: Provider): nat {
    AsMillis(p.start + p.delta * p.ticks)
  }

  lemma SplitProduct(d: nat, q: nat, r: nat, n: nat)
    requires r < d
    ensures (d * q + r) * n == d * (q * n) + r * n
    ensures 0 <= r * n <= d * n - n
  {
    assert (d * q) * n == d * (q * n);
    assert r * n <= (d - 1) * n;
  }

  lemma DivSum(a: nat, whole: nat, rest: nat, n: nat)
    requires rest <= NANOS_PER_MILLI * n - n
    ensures var sum := a / NANOS_PER_MILLI + whole;
            sum <= (a + NANOS_PER_MILLI * whole + rest) / NANOS_PER_MILLI <= sum + n
  {
  }

  /** Before saturation the clock never runs ahead and lags by less than a millisecond per tick: each
      tick drops the fraction of a millisecond of `delta`. */
  lemma LagIsBounded(p: Provider)
    requires Elapsed(p) <= U64_MAX
    ensures CurrentTime(p) <= ExactMillis(p) <= CurrentTime(p) + p.ticks
    ensures p.delta % NANOS_PER_MILLI == 0 ==> CurrentTime(p) == ExactMillis(p)
  {
    CurrentTimeIsMin(p);
    var d := NANOS_PER_MILLI;
    var whole, rest := (p.delta / d) * p.ticks, (p.delta % d) * p.ticks;
    SplitProduct(d, p.delta / d, p.delta % d, p.ticks);
    DivSum(p.start, whole, rest, p.ticks);
  }

  // ---- Aura slots ----

  datatype Inherent = Malformed | Missing | Timestamp(millis: nat)

  datatype Digest = RetrievalFailed | NotFound | DivisionByZero | PreDigest(slot: nat)

  /** The slot comes from the timestamp inherent alone; the parent header is not looked at. */
  function AuraDigest(inherent: Inherent, slotDuration: nat): Digest {
    match inherent
    case Malformed => RetrievalFailed
    case Missing => NotFound
    case Timestamp(millis) => if slotDuration == 0 then DivisionByZero else PreDigest(millis / slotDuration)
  }

  /** The slot is the one the inherent's time falls into, and each of the three errors has its own cause. */
  lemma DigestEnds(inherent: Inherent, slotDuration: nat)
    ensures var digest := AuraDigest(inherent, slotDuration);
            && (digest == RetrievalFailed <==> inherent.Malformed?)
            && (digest == NotFound <==> inherent.Missing?)
            && (digest == DivisionByZero <==> inherent.Timestamp? && slotDuration == 0)
            && (digest.PreDigest? ==>
                  inherent.Timestamp?
                      && slotDuration * digest.slot <= inherent.millis < slotDuration * (digest.slot + 1))
  {
    if inherent.Timestamp? && slotDuration > 0 {
      var slot := inherent.millis / slotDuration;
      assert inherent.millis == slotDuration * slot + inherent.millis % slotDuration;
      assert slotDuration * (slot + 1) == slotDuration * slot + slotDuration;
    }
  }

  /** The slot of a block made with this snapshot. */
  function SlotOf(p: Provider, slotDuration: nat): nat
    requires slotDuration > 0
  {
    AuraDigest(Timestamp(CurrentTime(p)), slotDuration).slot
  }

  function Later(p: Provider, n: nat): Provider {
    p.(ticks := p.ticks + n)
  }

  lemma ElapsedLater(p: Provider, n: nat)
    ensures Elapsed(Later(p, n)) == Elapsed(p) + AsMillis(p.delta) * n
  {
    assert AsMillis(p.delta) * (p.ticks + n) == AsMillis(p.delta) * p.ticks + AsMillis(p.delta) * n;
  }

  lemma TimesGrows(s: nat, a: nat, b: nat)
    requires a < b
    ensures s * a + s <= s * b
  {
    assert s * (a + 1) == s * a + s;
    assert s * (a + 1) <= s * b;
  }

  lemma DivUnique(x: nat, s: nat, q: nat, r: nat)
    requires s > 0 && x == s * q + r
    ensures x / s >= q && (r < s ==> x / s == q)
  {
    var k, rest := x / s, x % s;
    assert x == s * k + rest;
    if k < q {
      TimesGrows(s, k, q);
      assert false;
    }
    if r < s && k > q {
      TimesGrows(s, q, k);
      assert false;
    }
  }

  lemma DivAdvances(x: nat, d: nat, s: nat, m: nat)
    requires s > 0 && d >= s * m
    ensures (x + d) / s >= x / s + m
    ensures d == s * m ==> (x + d) / s == x / s + m
  {
    var q, r := x / s, x % s;
    assert x == s * q + r;
    assert s * (q + m) == s * q + s * m;
    DivUnique(x + d, s, q + m, r + (d - s * m));
  }

  lemma TimesRegroups(s: nat, m: nat, n: nat, d: nat)
    ensures d >= s * m ==> d * n >= s * (m * n)
    ensures d == s * m ==> d * n == s * (m * n)
  {
    assert s * (m * n) == (s * m) * n;
    if d >= s * m {
      assert d * n == (s * m) * n + (d - s * m) * n;
    }
  }

  /** Over `n` blocks, each with its own snapshot, the slot advances by at least `m` a block when delta
      covers `m` slots, and by exactly `m` a block when it is `m` slots, whatever the start. */
  lemma SlotsOverBlocks(p: Provider, slotDuration: nat, n: nat, m: nat)
    requires slotDuration > 0 && Elapsed(Later(p, n)) <= U64_MAX
    requires AsMillis(p.delta) >= slotDuration * m
    ensures SlotOf(Later(p, n), slotDuration) >= SlotOf(p, slotDuration) + m * n
    ensures AsMillis(p.delta) == slotDuration * m
            ==> SlotOf(Later(p, n), slotDuration) == SlotOf(p, slotDuration) + m * n
  {
    ElapsedLater(p, n);
    TimesRegroups(slotDuration, m, n, AsMillis(p.delta));
    DivAdvances(Elapsed(p), AsMillis(p.delta) * n, slotDuration, m * n);
  }

  ghost predicate AlwaysNewSlot(delta: nat, slotDuration: nat)
    requires slotDuration > 0
  {
    forall p: Provider :: p.delta == delta && Elapsed(Later(p, 1)) <= U64_MAX ==>
      SlotOf(p, slotDuration) < SlotOf(Later(p, 1), slotDuration)
  }

  ghost predicate AlwaysAdvancesBy(delta: nat, slotDuration: nat, m: nat)
    requires slotDuration > 0
  {
    forall p: Provider :: p.delta == delta && Elapsed(Later(p, 1)) <= U64_MAX ==>
      SlotOf(Later(p, 1), slotDuration) == SlotOf(p, slotDuration) + m
  }

  /** Two successive blocks never share a slot exactly when delta is at least the slot duration. */
  lemma NewSlotIffDeltaCovers(delta: nat, slotDuration: nat)
    requires 0 < slotDuration <= U64_MAX
    ensures AlwaysNewSlot(delta, slotDuration) <==> AsMillis(delta) >= slotDuration
  {
    if AsMillis(delta) >= slotDuration {
      forall p: Provider | p.delta == delta && Elapsed(Later(p, 1)) <= U64_MAX
        ensures SlotOf(p, slotDuration) < SlotOf(Later(p, 1), slotDuration)
      {
        SlotsOverBlocks(p, slotDuration, 1, 1);
      }
    } else {
      var p := Provider(0, 0, delta, 0);
      assert Elapsed(Later(p, 1)) == AsMillis(delta);
      assert CurrentTime(Later(p, 1)) == AsMillis(delta) && CurrentTime(p) == 0;
      assert AsMillis(delta) / slotDuration == 0 by { DivUnique(AsMillis(delta), slotDuration, 0, AsMillis(delta)); }
      assert 0 / slotDuration == 0 by { DivUnique(0, slotDuration, 0, 0); }
      assert SlotOf(p, slotDuration) == SlotOf(Later(p, 1), slotDuration) == 0;
    }
  }

  lemma TwoStartsForceMultiple(d: nat, s: nat, m: nat)
    requires s > 0 && d / s == m && (s - 1 + d) / s == m
    ensures d == s * m
  {
    assert d == s * m + d % s;
    if d % s > 0 {
      assert s * (m + 1) == s * m + s;
      DivUnique(s - 1 + d, s, m + 1, d % s - 1);
      assert false;
    }
  }

  /** Two successive blocks are always `m` slots apart exactly when delta is `m` slot durations. */
  lemma AdvancesByIffMultiple(delta: nat, slotDuration: nat, m: nat)
    requires slotDuration > 0 && AsMillis(delta) + slotDuration <= U64_MAX
    ensures AlwaysAdvancesBy(delta, slotDuration, m) <==> AsMillis(delta) == slotDuration * m
  {
    var d, s := AsMillis(delta), slotDuration;
    if d == s * m {
      forall p: Provider | p.delta == delta && Elapsed(Later(p, 1)) <= U64_MAX
        ensures SlotOf(Later(p, 1), s) == SlotOf(p, s) + m
      {
        SlotsOverBlocks(p, s, 1, m);
      }
    } else if AlwaysAdvancesBy(delta, s, m) {
      var early, late := Provider(0, 0, delta, 0), Provider(0, (s - 1) * NANOS_PER_MILLI, delta, 0);
      FirstSlots(early, s);
      FirstSlots(late, s);
      DivUnique(0, s, 0, 0);
      DivUnique(s - 1, s, 0, s - 1);
      TwoStartsForceMultiple(d, s, m);
      assert false;
    }
  }

  lemma FirstSlots(p: Provider, slotDuration: nat)
    requires slotDuration > 0 && p.ticks == 0 && AsMillis(p.start) + AsMillis(p.delta) <= U64_MAX
    ensures Elapsed(Later(p, 1)) <= U64_MAX
    ensures SlotOf(p, slotDuration) == AsMillis(p.start) / slotDuration
    ensures SlotOf(Later(p, 1), slotDuration) == (AsMillis(p.start) + AsMillis(p.delta)) / slotDuration
  {
  }
}
