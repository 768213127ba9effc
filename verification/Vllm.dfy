/** app/llm_installation/planner.py, the vLLM plan: a closed form for the largest
    concurrency, and how far it may miss what is then really placed. */
module Vllm {
  import opened Wrappers
  import opened Memory
  import opened Llamacpp

  function VllmEstimate(e: Entry, p: Profile, c: int): Estimate
    requires EntryOk(e)
  {
    EstimateMemory(e, ContextTarget(e, p), c, F16, true)
  }

  function GpuCount(p: Profile): (n: nat)
    ensures n >= 1
  {
    Max(1, |p.gpuTotal|)
  }

  /** Slots GPU i has room for after its share of the weights. */
  function Cap(e: Entry, p: Profile, i: nat): int
    requires EntryOk(e) && i < GpuCount(p)
  {
    var slot := SplitEvenly(VllmEstimate(e, p, 1).kv, GpuCount(p))[i];
    if slot > 0 then (Budget(e, p, i) / slot as real).Floor else MaxConcurrency
  }

  function Budget(e: Entry, p: Profile, i: nat): real
    requires EntryOk(e) && i < GpuCount(p)
  {
    Available(p.gpuFree, i) as real / HeadroomMultiplier
      - (SplitEvenly(VllmEstimate(e, p, 1).weight, GpuCount(p))[i] + FixedVram) as real
  }

  /** The result is the least of the caps, and at least one. */
  ghost predicate IsLeastCap(e: Entry, p: Profile, c: int)
    requires EntryOk(e)
  {
    && c >= 1
    && (c > 1 ==> forall i :: 0 <= i < GpuCount(p) ==> c <= Cap(e, p, i))
    && exists i :: 0 <= i < GpuCount(p) && Max(1, Cap(e, p, i)) == c
  }

  /** _vllm_max_concurrency */
  method VllmMaxConcurrency(e: Entry, p: Profile) returns (c: int)
    requires EntryOk(e)
    ensures IsLeastCap(e, p, c)
  {
    hide Cap, VllmEstimate;
    var count := GpuCount(p);
    var caps: seq<int> := [];
    for i := 0 to count
      invariant |caps| == i && forall k :: 0 <= k < i ==> caps[k] == Cap(e, p, k)
    {
      caps := caps + [Cap(e, p, i)];
    }
    var least := 0;
    for i := 1 to count
      invariant 0 <= least < i && forall k :: 0 <= k < i ==> caps[least] <= caps[k]
    {
      if caps[i] < caps[least] {
        least := i;
      }
    }
    c := Max(1, caps[least]);
  }

  // -------------------------------------------------------------- the bound

  lemma CacheRounds(x: real, p: int)
    ensures KvOf(x, p) == 1 || KvOf(x, p) as real <= x * p as real + 0.5
  {
  }

  lemma SlotRounds(x: real)
    ensures x <= KvOf(x, 1) as real + 0.5
  {
  }

  lemma HalfMore(x: real, one: int, p: int)
    requires x <= one as real + 0.5 && p >= 1
    ensures x * p as real <= (p * one) as real + p as real / 2.0
  {
    MulMonotone(x, one as real + 0.5, p as real);
    Distribute(one as real, p as real);
    ProductReal(p, one);
  }

  lemma Distribute(a: real, p: real)
    ensures (a + 0.5) * p == a * p + p / 2.0
  {
  }

  lemma ProductReal(p: int, one: int)
    ensures (p * one) as real == one as real * p as real
  {
  }

  /** Rounding once per plan instead of once per slot. */
  lemma CacheGrowth(x: real, p: int)
    requires p >= 1
    ensures 2 * KvOf(x, p) <= 2 * (p * KvOf(x, 1)) + p + 1
  {
    CacheRounds(x, p);
    SlotRounds(x);
    HalfMore(x, KvOf(x, 1), p);
    NatProduct(p, KvOf(x, 1));
    hide KvOf;
    Chain(KvOf(x, p), x * p as real, p * KvOf(x, 1), p);
  }

  lemma Chain(many: int, exact: real, slots: int, p: int)
    requires many == 1 || many as real <= exact + 0.5
    requires exact <= slots as real + p as real / 2.0 && slots >= 1 && p >= 1
    ensures 2 * many <= 2 * slots + p + 1
  {
  }

  lemma NatProduct(a: int, b: int)
    requires a >= 1 && b >= 1
    ensures a * b >= 1
  {
  }

  /** A share times the number of shares is within n - 1 of the total. */
  lemma ShareBounds(total: int, n: nat, i: nat)
    requires i < n
    ensures total - n + 1 <= n * SplitEvenly(total, n)[i] <= total + n - 1
  {
  }

  /** MAIN RESULT. Splitting and rounding together add at most p + 1 to p slots. */
  lemma ShareGrowth(x: real, p: int, n: nat, i: nat)
    requires p >= 1 && i < n
    ensures SplitEvenly(KvOf(x, p), n)[i] - p * SplitEvenly(KvOf(x, 1), n)[i] < p + 1
  {
    var many, one := SplitEvenly(KvOf(x, p), n)[i], SplitEvenly(KvOf(x, 1), n)[i];
    CacheGrowth(x, p);
    ShareBounds(KvOf(x, p), n, i);
    ShareBounds(KvOf(x, 1), n, i);
    ShareArithmetic(many, one, KvOf(x, p), KvOf(x, 1), p, n);
  }

  lemma ShareArithmetic(many: int, one: int, kvp: int, kv1: int, p: int, n: nat)
    requires p >= 1 && n >= 1
    requires n * many <= kvp + n - 1 && kv1 - n + 1 <= n * one && 2 * kvp <= 2 * (p * kv1) + p + 1
    ensures many - p * one < p + 1
  {
    Grows(kv1 - n + 1, n * one, p);
    Products(many, one, kv1, p, n);
    if many - p * one >= p + 1 {
      Grows(p + 1, many - p * one, n);
    }
  }

  lemma Grows(a: int, b: int, c: int)
    requires a <= b && c >= 0
    ensures c * a <= c * b
  {
  }

  lemma Products(many: int, one: int, kv1: int, p: int, n: int)
    ensures p * (kv1 - n + 1) == p * kv1 - n * p + p
    ensures n * (many - p * one) == n * many - p * (n * one)
    ensures n * (p + 1) == n * p + n
  {
  }

  /** MAIN RESULT. When every GPU holds some of the cache and the least cap is at
      least one slot, each GPU of the real placement needs less than its safe
      capacity plus p + 1 MB, despite rounding per plan and uneven splits. */
  lemma RequirementBound(e: Entry, p: Profile, c: int, i: nat)
    requires EntryOk(e) && i < |p.gpuTotal| && IsLeastCap(e, p, c)
    requires forall k :: 0 <= k < GpuCount(p) ==>
      Cap(e, p, k) >= 1 && SplitEvenly(VllmEstimate(e, p, 1).kv, GpuCount(p))[k] > 0
    ensures Total(PlaceVllm(VllmEstimate(e, p, c), |p.gpuTotal|).vram[i]) as real
              < Available(p.gpuFree, i) as real / HeadroomMultiplier + c as real + 1.0
  {
    var n := |p.gpuTotal|;
    var x := KvPerSlot(e, ContextTarget(e, p), F16);
    var slot, share := SplitEvenly(KvOf(x, 1), n)[i], SplitEvenly(KvOf(x, c), n)[i];
    ShareGrowth(x, c, n, i);
    assert c <= Cap(e, p, i);
    SlotsWithin(Budget(e, p, i), slot, c);
    hide KvPerSlot, Round;
    assert Total(PlaceVllm(VllmEstimate(e, p, c), n).vram[i])
        == SplitEvenly(VllmEstimate(e, p, c).weight, n)[i] + share + FixedVram;
  }

  lemma SlotsWithin(budget: real, slot: int, c: int)
    requires slot > 0 && c <= (budget / slot as real).Floor
    ensures (c * slot) as real <= budget
  {
  }

  // ------------------------------------------------- when the promise is kept

  /** The share of one slot that GPU i was counted for. */
  function SlotShare(e: Entry, p: Profile, i: nat): int
    requires EntryOk(e) && i < GpuCount(p)
  {
    SplitEvenly(VllmEstimate(e, p, 1).kv, GpuCount(p))[i]
  }

  /** The closed form's concurrency, from room for a slot on every GPU. */
  ghost predicate Solved(e: Entry, p: Profile, c: int)
    requires EntryOk(e)
  {
    IsLeastCap(e, p, c) && forall k :: 0 <= k < GpuCount(p) ==> Cap(e, p, k) >= 1
  }

  /** GPU i keeps its headroom at concurrency c with this much memory free. */
  predicate Keeps(e: Entry, p: Profile, free: seq<int>, c: int, i: nat)
    requires EntryOk(e) && i < |p.gpuTotal|
  {
    Roomy(PlaceVllm(VllmEstimate(e, p, c), |p.gpuTotal|), free, i)
  }

  /** What a caller can tell from the model alone: GPU i was counted for a share
      of a slot, and one that is at least its part of the unrounded slot. */
  predicate Guaranteed(e: Entry, p: Profile, i: nat)
    requires EntryOk(e) && i < GpuCount(p)
  {
    SlotShare(e, p, i) > 0
    && KvPerSlot(e, ContextTarget(e, p), F16) <= (GpuCount(p) * SlotShare(e, p, i)) as real
  }

  function ShareAt(e: Entry, p: Profile, c: int, i: nat): int
    requires EntryOk(e) && i < GpuCount(p)
  {
    SplitEvenly(KvOf(KvPerSlot(e, ContextTarget(e, p), F16), c), GpuCount(p))[i]
  }

  /** At a given concurrency the headroom is missed exactly by a cache share above
      the budget. */
  lemma KeepsExactly(e: Entry, p: Profile, c: int, i: nat)
    requires EntryOk(e) && i < |p.gpuTotal|
    ensures Keeps(e, p, p.gpuFree, c, i) <==> ShareAt(e, p, c, i) as real <= Budget(e, p, i)
  {
    hide KvPerSlot, Round, KvOf, SplitEvenly;
    var need := Total(PlaceVllm(VllmEstimate(e, p, c), |p.gpuTotal|).vram[i]);
    assert need == SplitEvenly(VllmEstimate(e, p, c).weight, |p.gpuTotal|)[i] + ShareAt(e, p, c, i) + FixedVram;
  }

  lemma RoundWhole(k: int)
    ensures Round(k as real) == k
  {
  }

  lemma ShareAtMost(total: int, n: nat, m: int, i: nat)
    requires i < n && total <= n * m
    ensures SplitEvenly(total, n)[i] <= m
  {
    QuotientAtMost(total, n, m);
  }

  lemma QuotientAtMost(total: int, n: nat, m: int)
    requires n > 0 && total <= n * m
    ensures total / n < m || (total / n == m && total % n == 0)
  {
    assert total == n * (total / n) + total % n;
    if total / n > m {
      Grows(m + 1, total / n, n);
    }
  }

  lemma ShareAtLeast(total: int, n: nat, m: int, i: nat)
    requires i < n && total >= n * m + i + 1
    ensures SplitEvenly(total, n)[i] >= m + 1
  {
    assert total == n * (total / n) + total % n;
    if total / n < m {
      Grows(total / n, m - 1, n);
    }
  }

  /** Slots that were not counted too small never turn out larger. */
  lemma GuardBounds(x: real, s: int, n: nat, c: int, i: nat)
    requires s > 0 && i < n && c >= 1 && x <= (n * s) as real
    ensures SplitEvenly(KvOf(x, c), n)[i] <= c * s
  {
    hide Round;
    MulMonotone(x, (n * s) as real, c as real);
    ProductReal(c, n * s);
    RoundMonotone(x * c as real, (c * (n * s)) as real);
    RoundWhole(c * (n * s));
    assert c * (n * s) == n * (c * s);
    NatProduct(n, s);
    NatProduct(c, n * s);
    ShareAtMost(KvOf(x, c), n, c * s, i);
  }

  /** The guard is enough. */
  lemma GuardKeeps(e: Entry, p: Profile, c: int, i: nat)
    requires EntryOk(e) && i < |p.gpuTotal| && Solved(e, p, c) && Guaranteed(e, p, i)
    ensures Keeps(e, p, p.gpuFree, c, i)
  {
    hide KvPerSlot, KvOf, Round, SplitEvenly;
    assert c <= Cap(e, p, i);
    GuardBounds(KvPerSlot(e, ContextTarget(e, p), F16), SlotShare(e, p, i), |p.gpuTotal|, c, i);
    SlotsWithin(Budget(e, p, i), SlotShare(e, p, i), c);
    KeepsExactly(e, p, c, i);
  }

  /** Free memory in which GPU k has room for exactly c slots. */
  function RoomFor(e: Entry, p: Profile, k: nat, c: int): int
    requires EntryOk(e) && k < GpuCount(p)
  {
    Ceil((c * SlotShare(e, p, k) + SplitEvenly(VllmEstimate(e, p, 1).weight, GpuCount(p))[k] + FixedVram) as real
         * HeadroomMultiplier)
  }

  lemma RoomIsExact(e: Entry, p: Profile, k: nat, c: int)
    requires EntryOk(e) && k < GpuCount(p) && Available(p.gpuFree, k) == RoomFor(e, p, k, c) && SlotShare(e, p, k) > 0
    ensures (c * SlotShare(e, p, k)) as real <= Budget(e, p, k) < (c * SlotShare(e, p, k)) as real + 1.0
    ensures Cap(e, p, k) == c
  {
    hide KvPerSlot, Round, KvOf, SplitEvenly;
    SlotsCounted(Budget(e, p, k), SlotShare(e, p, k), c);
  }

  lemma SlotsCounted(budget: real, slot: int, c: int)
    requires slot > 0 && (c * slot) as real <= budget < (c * slot) as real + 1.0
    ensures (budget / slot as real).Floor == c
  {
    var q := budget / slot as real;
    DivTimes(budget, slot as real);
    ProductReal(c, slot);
    if q < c as real {
      MulStrict(q, c as real, slot as real);
    }
    if q >= c as real + 1.0 {
      MulMonotone(c as real + 1.0, q, slot as real);
    }
  }

  /** Enough slots for the lost fraction to become a MB on GPU i. */
  lemma LossAddsUp(x: real, s: int, n: nat, i: nat) returns (c: int)
    requires i < n && x > (n * s) as real
    ensures c >= 1 && SplitEvenly(KvOf(x, c), n)[i] >= c * s + 1
  {
    hide Round;
    var lost := x - (n * s) as real;
    var enough := (i + 2) as real / lost;
    DivTimes((i + 2) as real, lost);
    c := Max(1, enough.Floor + 1);
    MulMonotone(enough, c as real, lost);
    assert c as real * lost >= (i + 2) as real;
    ProductReal(c, n * s);
    Product3(x, (n * s) as real, c as real);
    assert c * (n * s) == n * (c * s);
    ShareAtLeast(KvOf(x, c), n, c * s, i);
  }

  lemma Product3(x: real, y: real, c: real)
    ensures x * c == y * c + c * (x - y)
  {
  }

  /** Where GPU i is counted too small a share, all GPUs are counted for some. */
  lemma AllCounted(x: real, s: int, n: nat, k: nat)
    requires s > 0 && k < n && x > (n * s) as real
    ensures SplitEvenly(KvOf(x, 1), n)[k] > 0
  {
    hide Round;
    NatProduct(n, s);
    RoundMonotone((n * s) as real, x * 1 as real);
    RoundWhole(n * s);
    Grows(1, s, n);
    AtLeastOneEach(KvOf(x, 1), n, k);
  }

  lemma AtLeastOneEach(total: int, n: nat, k: nat)
    requires k < n && total >= n
    ensures SplitEvenly(total, n)[k] > 0
  {
    assert total == n * (total / n) + total % n;
  }

  lemma FirstIsCounted(total: int, n: nat)
    requires total >= 1 && n >= 1
    ensures SplitEvenly(total, n)[0] > 0
  {
  }

  lemma SharesNatural(total: int, n: nat, i: nat)
    requires total >= 0 && i < n
    ensures SplitEvenly(total, n)[i] >= 0
  {
  }

  /** Without the guard some free memory breaks the promise. */
  lemma GuardNeeded(e: Entry, p: Profile, i: nat) returns (free: seq<int>, c: int)
    requires EntryOk(e) && i < |p.gpuTotal| && !Guaranteed(e, p, i)
    ensures Solved(e, p.(gpuFree := free), c) && !Keeps(e, p, free, c, i)
  {
    var n, x := |p.gpuTotal|, KvPerSlot(e, ContextTarget(e, p), F16);
    SharesNatural(VllmEstimate(e, p, 1).kv, n, i);
    if SlotShare(e, p, i) == 0 {
      free, c := UncountedBreaks(e, p, i);
    } else {
      c := LossAddsUp(x, SlotShare(e, p, i), n, i);
      free := seq(n, k requires 0 <= k < n => RoomFor(e, p, k, c));
      var q := p.(gpuFree := free);
      hide KvPerSlot, Round, KvOf, SplitEvenly, Cap, Budget, RoomFor, Keeps;
      forall k | 0 <= k < n ensures Cap(e, q, k) == c {
        AllCounted(x, SlotShare(e, p, i), n, k);
        SameRoom(e, p, free, k, c);
        RoomIsExact(e, q, k, c);
      }
      SameRoom(e, p, free, i, c);
      RoomIsExact(e, q, i, c);
      KeepsExactly(e, q, c, i);
      assert Max(1, Cap(e, q, i)) == c;
    }
  }

  lemma SameRoom(e: Entry, p: Profile, free: seq<int>, k: nat, c: int)
    requires EntryOk(e) && k < GpuCount(p)
    ensures
      var q := p.(gpuFree := free);
      RoomFor(e, q, k, c) == RoomFor(e, p, k, c) && SlotShare(e, q, k) == SlotShare(e, p, k)
      && (forall d :: ShareAt(e, q, d, k) == ShareAt(e, p, d, k))
      && (k < |p.gpuTotal| ==> forall d :: Keeps(e, q, free, d, k) == Keeps(e, p, free, d, k))
  {
  }

  /** A GPU that a slot was counted for nothing on may be full. */
  lemma UncountedBreaks(e: Entry, p: Profile, i: nat) returns (free: seq<int>, c: int)
    requires EntryOk(e) && i < |p.gpuTotal| && SlotShare(e, p, i) == 0
    ensures Solved(e, p.(gpuFree := free), c) && !Keeps(e, p, free, c, i)
  {
    var n := |p.gpuTotal|;
    c := 1;
    free := seq(n, k requires 0 <= k < n => if k == i then 0 else RoomFor(e, p, k, 1));
    var q := p.(gpuFree := free);
    FirstIsCounted(VllmEstimate(e, p, 1).kv, n);
    SharesNatural(VllmEstimate(e, p, 1).weight, n, i);
    hide KvPerSlot, Round, KvOf, SplitEvenly, RoomFor, Keeps;
    forall k | 0 <= k < n ensures Cap(e, q, k) == if SlotShare(e, p, k) > 0 then 1 else Cap(e, q, k) {
      SameRoom(e, p, free, k, 1);
      if SlotShare(e, p, k) > 0 {
        RoomIsExact(e, q, k, 1);
      }
    }
    SharesNotNegative(e, q);
    assert Max(1, Cap(e, q, 0)) == c;
    SameRoom(e, p, free, i, 1);
    assert Budget(e, q, i) < 0.0;
    KeepsExactly(e, q, 1, i);
  }

  lemma SharesNotNegative(e: Entry, p: Profile)
    requires EntryOk(e)
    ensures forall k :: 0 <= k < GpuCount(p) ==> SlotShare(e, p, k) >= 0
  {
    forall k | 0 <= k < GpuCount(p) ensures SlotShare(e, p, k) >= 0 {
      SharesNatural(VllmEstimate(e, p, 1).kv, GpuCount(p), k);
    }
  }

  /** MAIN RESULT. GPU i keeps the headroom the closed form was solved for,
      whatever memory is free, exactly if its share of a rounded slot is counted
      and, taken for all GPUs, is no less than the slot. */
  lemma PromiseExactly(e: Entry, p: Profile, i: nat)
    requires EntryOk(e) && i < |p.gpuTotal|
    ensures (forall free: seq<int>, c: int :: Solved(e, p.(gpuFree := free), c) ==> Keeps(e, p, free, c, i))
      <==> Guaranteed(e, p, i)
  {
    hide Solved, Keeps, Guaranteed;
    if Guaranteed(e, p, i) {
      forall free: seq<int>, c: int | Solved(e, p.(gpuFree := free), c) ensures Keeps(e, p, free, c, i) {
        var q := p.(gpuFree := free);
        SameGuard(e, p, free, c, i);
        GuardKeeps(e, q, c, i);
      }
    } else {
      var free, c := GuardNeeded(e, p, i);
    }
  }

  lemma SameGuard(e: Entry, p: Profile, free: seq<int>, c: int, i: nat)
    requires EntryOk(e) && i < |p.gpuTotal|
    ensures Guaranteed(e, p.(gpuFree := free), i) == Guaranteed(e, p, i)
    ensures Keeps(e, p.(gpuFree := free), free, c, i) == Keeps(e, p, free, c, i)
  {
  }

  /** With the guard on all GPUs, and RAM for the overhead, the plan fits. */
  lemma GuaranteedFits(e: Entry, p: Profile, c: int)
    requires EntryOk(e) && |p.gpuTotal| > 0 && Solved(e, p, c) && PlanningRam(p) >= 640
    requires forall i :: 0 <= i < |p.gpuTotal| ==> Guaranteed(e, p, i)
    ensures FitOf(PlaceVllm(VllmEstimate(e, p, c), |p.gpuTotal|), PlanningRam(p), p.gpuFree) == Fit
  {
    var estimate := VllmEstimate(e, p, c);
    assert estimate.weight >= 1 && estimate.kv >= 1;
    hide Solved, Guaranteed, SplitEvenly, VllmEstimate;
    var placement := PlaceVllm(estimate, |p.gpuTotal|);
    forall i | 0 <= i < |placement.vram| ensures Roomy(placement, p.gpuFree, i) && Total(placement.vram[i]) >= 0 {
      GuardKeeps(e, p, c, i);
      PartNatural(estimate, |p.gpuTotal|, i);
    }
  }

  lemma PartNatural(estimate: Estimate, n: nat, i: nat)
    requires estimate.weight >= 0 && estimate.kv >= 0 && i < n
    ensures Total(PlaceVllm(estimate, n).vram[i]) >= 0
  {
    SharesNatural(estimate.weight, n, i);
    SharesNatural(estimate.kv, n, i);
  }

  /** One case of it: a slot of a whole number of MB that all GPUs share evenly. */
  lemma ExactWhenWhole(e: Entry, p: Profile, c: int, i: nat, m: int)
    requires EntryOk(e) && i < |p.gpuTotal| && IsLeastCap(e, p, c) && m >= 1
    requires KvPerSlot(e, ContextTarget(e, p), F16) == (m * |p.gpuTotal|) as real
    requires forall k :: 0 <= k < GpuCount(p) ==> Cap(e, p, k) >= 1
    ensures Roomy(PlaceVllm(VllmEstimate(e, p, c), |p.gpuTotal|), p.gpuFree, i)
  {
    var n := |p.gpuTotal|;
    WholeCache(m, n, 1);
    WholeShare(m, n, i);
    assert 1 * m * n == m * n && m * n == n * m;
    GuardKeeps(e, p, c, i);
  }

  lemma WholeCache(m: int, n: nat, c: int)
    requires m >= 1 && n >= 1 && c >= 1
    ensures KvOf((m * n) as real, c) == c * m * n
  {
  }

  lemma WholeShare(k: int, n: nat, i: nat)
    requires n >= 1 && i < n
    ensures SplitEvenly(k * n, n)[i] == k
  {
  }

  // ---------------------------------------------------------------- the plan

  /** The GPUs' example of a slot of 1.40625 MB that rounds down alone. */
  function SmallSlots(): Entry {
    Entry(Metadata(1.0, 45, 1, 1, 1, 1, 8192), 1.0, 0, false)
  }

  function OneGpu(): Profile {
    Profile(100000, 0, [3810], [3810], 0, 8192, true)
  }

  /** MAIN RESULT. The closed form can promise headroom that the placement does
      not have: twelve slots of one rounded MB each turn out as 17 MB. */
  lemma ClosedFormCanMissFit()
    ensures EntryOk(SmallSlots()) && IsLeastCap(SmallSlots(), OneGpu(), 12)
    ensures FitOf(PlaceVllm(VllmEstimate(SmallSlots(), OneGpu(), 12), 1), 100000, [3810]) == Risky
  {
    var e, p := SmallSlots(), OneGpu();
    assert KvPerToken(e.meta, F16) == 180.0 / 1048576.0;
    assert KvPerSlot(e, 8192, F16) == 1.40625;
    assert WeightOf(e) == 1024;
    assert KvOf(1.40625, 1) == 1;
    assert 1.40625 * 12.0 == 16.875;
    assert KvOf(1.40625, 12) == 17;
    assert SplitEvenly(1, 1) == [1] && SplitEvenly(17, 1) == [17] && SplitEvenly(1024, 1) == [1024];
    assert Budget(e, p, 0) == 12.0;
    assert Cap(e, p, 0) == 12;
    assert GpuCount(p) == 1;
    var placement := PlaceVllm(VllmEstimate(e, p, 12), 1);
    assert Total(placement.vram[0]) == 3053;
    assert !Roomy(placement, [3810], 0);
  }

  /** There is only one least cap. */
  lemma OneLeastCap(e: Entry, p: Profile, c: int)
    requires EntryOk(e) && IsLeastCap(e, p, c)
    ensures forall d :: IsLeastCap(e, p, d) ==> d == c
  {
    hide Cap;
  }

  /** _plan_vllm with the NOFIT check of build_serving_plan behind it. */
  method BuildVllmPlan(e: Entry, p: Profile, preserved: Option<Status>) returns (r: Result<ServingPlan, string>)
    requires EntryOk(e)
    ensures r.Ok? ==>
      var plan := r.value;
      && IsLeastCap(e, p, plan.concurrency) && plan.parallel == plan.maxSeqs == plan.concurrency
      && plan.placement == PlaceVllm(VllmEstimate(e, p, plan.concurrency), |p.gpuTotal|)
      && plan.serverCtx == plan.maxBatched == plan.contextLength * plan.concurrency
    ensures r.Ok? && preserved.Some? ==> r.value.fitStatus == preserved.value
    ensures r.Ok? && (preserved == Some(Fit) || preserved.None?) ==>
      r.value.fitStatus == VllmStatus(e, p, r.value.concurrency)
    ensures r.Ok? && preserved.Some? ==> VllmStatus(e, p, r.value.concurrency) != NoFit
    ensures forall c :: IsLeastCap(e, p, c) ==>
      (r.Err? <==>
         && preserved.Some?
         && (|| preserved.value == NoFit || VllmStatus(e, p, c) == NoFit
             || (preserved.value == Fit && VllmStatus(e, p, c) != Fit)))
  {
    hide FitOf, PlaceVllm, DiskFit, Cap;
    var c := VllmMaxConcurrency(e, p);
    OneLeastCap(e, p, c);
    var estimate := VllmEstimate(e, p, c);
    var placement := PlaceVllm(estimate, |p.gpuTotal|);
    var pools := PoolFit(placement, PlanningRam(p), p.gpuFree);
    var status := Combine(pools, DiskFit(e, p));
    if status == NoFit && preserved.Some? {
      return Err(Unresolvable);
    }
    if preserved == Some(Fit) && status != Fit {
      return Err(Unresolvable);
    }
    var context := ContextTarget(e, p);
    var fit := if preserved.Some? then preserved.value else status;
    if preserved.Some? && fit == NoFit {
      return Err(Unresolvable);
    }
    r := Ok(ServingPlan(GpuVllm, fit, context, context * c, c, c, c, context * c, KvVram, e.meta.layers,
                        estimate.weight, estimate.kv, placement));
  }

  function VllmStatus(e: Entry, p: Profile, c: int): Status
    requires EntryOk(e)
  {
    Combine(FitOf(PlaceVllm(VllmEstimate(e, p, c), |p.gpuTotal|), PlanningRam(p), p.gpuFree), DiskFit(e, p))
  }
}
