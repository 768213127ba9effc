/** app/llm_installation/planner.py, _plan_llamacpp: the descending search for a
    concurrency and a KV placement, and the plan that becomes the safe ceiling. */
module Llamacpp {
  import opened Wrappers
  import opened Memory

  datatype Backend = Cpu | GpuOffload

  datatype Candidate = CpuOnly | FullOffload | PartialOffload | Unavailable | GpuVllm

  datatype ServingPlan = ServingPlan(
    candidate: Candidate, fitStatus: Status, contextLength: int, serverCtx: int,
    concurrency: int, parallel: int, maxSeqs: int, maxBatched: int,
    kvPlace: KvPlace, gpuLayers: int, weight: int, kv: int, placement: Placement)

  const Unresolvable := "RUNTIME_CONFIG_UNRESOLVABLE"

  /** _context_target */
  function ContextTarget(e: Entry, p: Profile): (context: int)
    ensures 1 <= context <= DefaultContext
  {
    var cap := Min(e.meta.maxContext, if p.contextCap != 0 then p.contextCap else 16384);
    if cap > 0 then Min(DefaultContext, cap) else Max(1, cap)
  }

  function SlotEstimate(e: Entry, p: Profile, c: int): Estimate
    requires EntryOk(e)
  {
    EstimateMemory(e, ContextTarget(e, p), c, Q8, false)
  }

  /** The placement tried at concurrency c: on a GPU at least one layer. */
  function PlacementAt(e: Entry, p: Profile, b: Backend, place: KvPlace, c: int): Placement
    requires EntryOk(e)
  {
    var estimate := SlotEstimate(e, p, c);
    if b == Cpu then PlaceCpu(estimate, |p.gpuTotal|)
    else
      var auto := PlaceLlamacpp(estimate, p.gpuFree, e.meta.layers, place, false);
      if auto.layers == 0 then PlaceLlamacpp(estimate, p.gpuFree, e.meta.layers, place, true) else auto
  }

  function PoolAt(e: Entry, p: Profile, b: Backend, place: KvPlace, c: int): Status
    requires EntryOk(e)
  {
    FitOf(PlacementAt(e, p, b, place, c), PlanningRam(p), p.gpuFree)
  }

  function StatusAt(e: Entry, p: Profile, b: Backend, place: KvPlace, c: int): Status
    requires EntryOk(e)
  {
    Combine(PoolAt(e, p, b, place, c), DiskFit(e, p))
  }

  // ---------------------------------------------------------- monotonicity

  lemma SlotsGrow(e: Entry, p: Profile, c: int, d: int)
    requires EntryOk(e) && 1 <= c <= d
    ensures SlotEstimate(e, p, c).kv <= SlotEstimate(e, p, d).kv
    ensures SlotEstimate(e, p, c).weight == SlotEstimate(e, p, d).weight
    ensures SlotEstimate(e, p, c).overhead == SlotEstimate(e, p, d).overhead
  {
    KvMonotone(KvPerSlot(e, ContextTarget(e, p), Q8), c, d);
  }

  lemma DivMonotone(a: int, b: int, p: real)
    requires a <= b && p > 0.0
    ensures (a as real / p).Floor <= (b as real / p).Floor
  {
    var x, y := a as real / p, b as real / p;
    assert x * p == a as real && y * p == b as real;
    if y < x {
      MulStrict(y, x, p);
    }
  }

  /** More cache leaves room for no more layers. */
  lemma LayersShrink(a: Estimate, b: Estimate, free: seq<int>, layers: int, place: KvPlace)
    requires a.weight == b.weight >= 1 && a.kv <= b.kv
    ensures AutoLayers(b, free, layers, place) <= AutoLayers(a, free, layers, place)
  {
    PerLayerPositive(a.weight, layers);
    DivMonotone(Max(0, SafeCapacity(free) - (FixedVram + KvOnGpu(b, place))),
                Max(0, SafeCapacity(free) - (FixedVram + KvOnGpu(a, place))), PerLayer(a.weight, layers));
  }

  /** A layer chosen, not forced, means there was room on a GPU. */
  lemma ChosenMeansRoom(e: Estimate, free: seq<int>, layers: int, place: KvPlace)
    requires e.weight >= 1 && e.kv >= 1 && AutoLayers(e, free, layers, place) != 0
    ensures free != [] && layers >= 1 && FixedVram + KvOnGpu(e, place) <= SafeCapacity(free)
    ensures AutoLayers(e, free, layers, place) >= 1
  {
  }

  function EffectiveLayers(e: Estimate, free: seq<int>, layers: int, place: KvPlace): int
    requires e.weight >= 1
  {
    var auto := AutoLayers(e, free, layers, place);
    if auto == 0 then ClampLayers(1, layers) else auto
  }

  lemma PlacementLayers(e: Entry, p: Profile, place: KvPlace, c: int)
    requires EntryOk(e)
    ensures PlacementAt(e, p, GpuOffload, place, c) ==
      PlaceLayers(SlotEstimate(e, p, c), p.gpuFree, e.meta.layers, place,
                  EffectiveLayers(SlotEstimate(e, p, c), p.gpuFree, e.meta.layers, place))
  {
  }

  /** With as many layers forced on the GPU, less cache asks less of every pool. */
  lemma FixedLayersMonotone(a: Estimate, b: Estimate, free: seq<int>, layers: int, place: KvPlace, n: int)
    requires a.weight == b.weight && 1 <= a.kv <= b.kv
    ensures
      var x, y := PlaceLayers(a, free, layers, place, n), PlaceLayers(b, free, layers, place, n);
      && |x.vram| == |y.vram| && Total(x.ram) <= Total(y.ram)
      && forall i :: 0 <= i < |x.vram| ==> Total(x.vram[i]) <= Total(y.vram[i])
  {
  }

  lemma PoolsNonNegative(e: Estimate, free: seq<int>, layers: int, place: KvPlace, n: int)
    requires e.weight >= 1 && e.kv >= 1 && 0 <= n && (n <= layers || n == 0)
    ensures forall i :: 0 <= i < |free| ==> Total(PlaceLayers(e, free, layers, place, n).vram[i]) >= 0
  {
  }

  /** On GPU offload, dropping slots asks less of RAM, and GPU 0 either asks less
      or keeps its headroom. */
  lemma FewerSlotsAskLess(a: Estimate, b: Estimate, free: seq<int>, layers: int, place: KvPlace, ram: int)
    requires a.weight == b.weight >= 1 && 1 <= a.kv <= b.kv
    ensures
      var x := PlaceLayers(a, free, layers, place, EffectiveLayers(a, free, layers, place));
      var y := PlaceLayers(b, free, layers, place, EffectiveLayers(b, free, layers, place));
      Badness(FitOf(x, ram, free)) <= Badness(FitOf(y, ram, free))
  {
    hide FitOf, WeightOnGpu;
    var m, n := EffectiveLayers(a, free, layers, place), EffectiveLayers(b, free, layers, place);
    var x, y := PlaceLayers(a, free, layers, place, m), PlaceLayers(b, free, layers, place, n);
    LayersShrink(a, b, free, layers, place);
    PoolsNonNegative(a, free, layers, place, m);
    if AutoLayers(a, free, layers, place) == 0 {
      assert m == n;
      FixedLayersMonotone(a, b, free, layers, place, n);
    } else {
      ChosenMeansRoom(a, free, layers, place);
      LayersAreMaximal(a, free, layers, place);
      assert n <= m;
      MoreLayersMoreWeight(a.weight, layers, n, m);
      assert Roomy(x, free, 0);
    }
    LessFitsBetter(x, y, ram, free);
  }

  /** MAIN RESULT. With the hardware and the KV placement fixed, no larger
      concurrency fits better, whatever it does to the layer count and to the
      split between RAM and VRAM. */
  lemma MoreSlotsNeverBetter(e: Entry, p: Profile, b: Backend, place: KvPlace, c: int, d: int)
    requires EntryOk(e) && 1 <= c <= d
    ensures Badness(PoolAt(e, p, b, place, c)) <= Badness(PoolAt(e, p, b, place, d))
    ensures Badness(StatusAt(e, p, b, place, c)) <= Badness(StatusAt(e, p, b, place, d))
  {
    hide FitOf, SlotEstimate;
    SlotsGrow(e, p, c, d);
    SlotIsPositive(e, p, c);
    if b == Cpu {
      LessFitsBetter(PlacementAt(e, p, b, place, c), PlacementAt(e, p, b, place, d), PlanningRam(p), p.gpuFree);
    } else {
      PlacementLayers(e, p, place, c);
      PlacementLayers(e, p, place, d);
      hide PlacementAt, PlaceLayers, EffectiveLayers;
      FewerSlotsAskLess(SlotEstimate(e, p, c), SlotEstimate(e, p, d), p.gpuFree, e.meta.layers, place, PlanningRam(p));
    }
  }

  lemma SlotIsPositive(e: Entry, p: Profile, c: int)
    requires EntryOk(e)
    ensures SlotEstimate(e, p, c).kv >= 1 && SlotEstimate(e, p, c).weight >= 1
  {
  }

  // ------------------------------------------------------------- the search

  /** _llamacpp_concurrency_seed: best case, everything offloaded. */
  function Seed(e: Entry, p: Profile, b: Backend): (seed: int)
    requires EntryOk(e)
    ensures seed >= 1
  {
    var baseline := SlotEstimate(e, p, 1);
    var available := if b == Cpu then PlanningRam(p) else Available(p.gpuFree, 0);
    var fixed := baseline.weight + (if b == Cpu then CpuOverhead else FixedVram);
    Max(1, ((available as real / HeadroomMultiplier - fixed as real) / baseline.kv as real).Floor)
  }

  function ParallelCap(e: Entry, p: Profile, b: Backend): (cap: int)
    requires EntryOk(e)
    ensures 1 <= cap <= MaxConcurrency
  {
    Min(MaxConcurrency, Seed(e, p, b))
  }

  function KvPlaces(p: Profile, b: Backend): (places: seq<KvPlace>)
    ensures 1 <= |places| <= 2
  {
    if b == GpuOffload && p.kvOffload then [KvVram, KvRam] else [KvRam]
  }

  /** The plan of one candidate of the search. */
  function LoopPlan(e: Entry, p: Profile, b: Backend, place: KvPlace, c: int, preserved: Option<Status>): ServingPlan
    requires EntryOk(e)
  {
    var placement := PlacementAt(e, p, b, place, c);
    var context := ContextTarget(e, p);
    ServingPlan(
      if b == Cpu then CpuOnly else if placement.layers >= e.meta.layers then FullOffload else PartialOffload,
      if preserved.Some? then preserved.value else StatusAt(e, p, b, place, c),
      context, context * c, c, c, c, context * c, place, placement.layers,
      SlotEstimate(e, p, c).weight, SlotEstimate(e, p, c).kv, placement)
  }

  function FallbackEstimate(e: Entry, p: Profile): Estimate
    requires EntryOk(e)
  {
    EstimateMemory(e, ContextTarget(e, p), 1, F16, false)
  }

  /** The diagnostic plan after the search: cache in VRAM, no forced layer, but
      labelled with RAM. */
  function FallbackPlacement(e: Entry, p: Profile, b: Backend): Placement
    requires EntryOk(e)
  {
    var estimate := FallbackEstimate(e, p);
    if b == Cpu then PlaceCpu(estimate, |p.gpuTotal|)
    else PlaceLlamacpp(estimate, p.gpuFree, e.meta.layers, KvVram, false)
  }

  function FallbackPlan(e: Entry, p: Profile, b: Backend): ServingPlan
    requires EntryOk(e)
  {
    var placement := FallbackPlacement(e, p, b);
    var estimate := FallbackEstimate(e, p);
    var context := ContextTarget(e, p);
    ServingPlan(Unavailable, Combine(FitOf(placement, PlanningRam(p), p.gpuFree), DiskFit(e, p)),
                context, context, 1, 1, 1, context, KvRam, if b == Cpu then 0 else placement.layers,
                estimate.weight, estimate.kv, placement)
  }

  /** The candidate is at least this good. */
  predicate Reaches(e: Entry, p: Profile, b: Backend, level: Status, place: KvPlace, c: int)
    requires EntryOk(e)
  {
    Badness(StatusAt(e, p, b, place, c)) <= Badness(level)
  }

  /** Place k is the first with a candidate of the level, c its largest one. */
  ghost predicate FirstBest(e: Entry, p: Profile, b: Backend, level: Status, k: nat, c: int)
    requires EntryOk(e)
  {
    var places, cap := KvPlaces(p, b), ParallelCap(e, p, b);
    && k < |places| && 1 <= c <= cap && Reaches(e, p, b, level, places[k], c)
    && (forall d :: c < d <= cap ==> !Reaches(e, p, b, level, places[k], d))
    && forall j, d :: 0 <= j < k && 1 <= d <= cap ==> !Reaches(e, p, b, level, places[j], d)
  }

  /** No candidate of the first k places has the level. */
  ghost predicate NoneBefore(e: Entry, p: Profile, b: Backend, level: Status, k: nat)
    requires EntryOk(e)
  {
    var places := KvPlaces(p, b);
    forall j, d :: 0 <= j < k && j < |places| && 1 <= d <= ParallelCap(e, p, b) ==>
      !Reaches(e, p, b, level, places[j], d)
  }

  /** The search result is the one these conditions describe. */
  ghost predicate SearchResult(
    e: Entry, p: Profile, b: Backend, preserved: Option<Status>, r: Result<ServingPlan, string>)
    requires EntryOk(e)
  {
    var places := KvPlaces(p, b);
    || (exists k: nat, c :: FirstBest(e, p, b, Fit, k, c) && r == Ok(LoopPlan(e, p, b, places[k], c, preserved)))
    || (&& NoneBefore(e, p, b, Fit, |places|)
        && exists k: nat, c :: FirstBest(e, p, b, Risky, k, c)
             && r == if preserved == Some(Fit)
                then Err(Unresolvable) else Ok(LoopPlan(e, p, b, places[k], c, preserved)))
    || (NoneBefore(e, p, b, Risky, |places|) && r == Ok(FallbackPlan(e, p, b)))
  }

  /** _plan_llamacpp. A place whose single slot does not fit is skipped without a
      search; the monotonicity says nothing is lost. */
  method PlanLlamacpp(e: Entry, p: Profile, b: Backend, preserved: Option<Status>)
    returns (r: Result<ServingPlan, string>)
    requires EntryOk(e)
    ensures SearchResult(e, p, b, preserved, r)
  {
    hide PlacementAt, StatusAt, PoolAt, ParallelCap, LoopPlan, FallbackPlan, DiskFit;
    var cap := ParallelCap(e, p, b);
    var places := KvPlaces(p, b);
    var bestRisky: Option<ServingPlan> := None;
    for i := 0 to |places|
      invariant NoneBefore(e, p, b, Fit, i)
      invariant bestRisky.None? ==> NoneBefore(e, p, b, Risky, i)
      invariant bestRisky.Some? ==> exists k: nat, c ::
        k < i && FirstBest(e, p, b, Risky, k, c) && bestRisky.value == LoopPlan(e, p, b, places[k], c, preserved)
    {
      var place := places[i];
      var baseline := PoolFit(PlacementAt(e, p, b, place, 1), PlanningRam(p), p.gpuFree);
      if baseline == NoFit {
        SkippedPlace(e, p, b, place);
        continue;
      }
      var parallel := cap;
      while parallel >= 1
        invariant parallel <= cap
        invariant forall d :: parallel < d <= cap ==> !Reaches(e, p, b, Fit, place, d)
        invariant bestRisky.None? ==>
          NoneBefore(e, p, b, Risky, i) && forall d :: parallel < d <= cap ==> !Reaches(e, p, b, Risky, place, d)
        invariant bestRisky.Some? ==> exists k: nat, c ::
          k <= i && FirstBest(e, p, b, Risky, k, c) && bestRisky.value == LoopPlan(e, p, b, places[k], c, preserved)
      {
        var pools := PoolFit(PlacementAt(e, p, b, place, parallel), PlanningRam(p), p.gpuFree);
        var status := Combine(pools, DiskFit(e, p));
        assert status == StatusAt(e, p, b, place, parallel) by { StatusIs(e, p, b, place, parallel); }
        if status != NoFit {
          var plan := LoopPlan(e, p, b, place, parallel, preserved);
          if status == Fit {
            assert FirstBest(e, p, b, Fit, i, parallel);
            return Ok(plan);
          }
          if bestRisky.None? {
            assert FirstBest(e, p, b, Risky, i, parallel);
            bestRisky := Some(plan);
          }
        }
        parallel := parallel - 1;
      }
    }
    if bestRisky.Some? {
      if preserved == Some(Fit) {
        return Err(Unresolvable);
      }
      return Ok(bestRisky.value);
    }
    r := Ok(FallbackPlan(e, p, b));
  }

  lemma StatusIs(e: Entry, p: Profile, b: Backend, place: KvPlace, c: int)
    requires EntryOk(e)
    ensures StatusAt(e, p, b, place, c) ==
      Combine(FitOf(PlacementAt(e, p, b, place, c), PlanningRam(p), p.gpuFree), DiskFit(e, p))
  {
  }

  lemma SkippedPlace(e: Entry, p: Profile, b: Backend, place: KvPlace)
    requires EntryOk(e) && FitOf(PlacementAt(e, p, b, place, 1), PlanningRam(p), p.gpuFree) == NoFit
    ensures forall d :: 1 <= d <= ParallelCap(e, p, b) ==>
      !Reaches(e, p, b, Fit, place, d) && !Reaches(e, p, b, Risky, place, d)
  {
    hide PlacementAt, FitOf, ParallelCap;
    forall d | 1 <= d <= ParallelCap(e, p, b)
      ensures !Reaches(e, p, b, Fit, place, d) && !Reaches(e, p, b, Risky, place, d)
    {
      MoreSlotsNeverBetter(e, p, b, place, 1, d);
    }
  }

  // ------------------------------------------------------------ the ceiling

  /** With the layers planned for c slots kept, d slots ask no more of any pool. */
  ghost predicate AsksNoMore(e: Entry, p: Profile, place: KvPlace, d: int, c: int)
    requires EntryOk(e)
  {
    var planned := PlacementAt(e, p, GpuOffload, place, c);
    var staged := PlaceLayers(SlotEstimate(e, p, d), p.gpuFree, e.meta.layers, place, planned.layers);
    && Total(staged.ram) <= Total(planned.ram) && |staged.vram| == |planned.vram|
    && forall i :: 0 <= i < |staged.vram| ==> Total(staged.vram[i]) <= Total(planned.vram[i])
  }

  /** MAIN RESULT. The concurrency of a plan found by the search is a safe ceiling:
      every smaller one fits at least as well in the same KV placement, and with
      the planned layers kept it asks no more of any pool. */
  lemma SafeCeiling(e: Entry, p: Profile, b: Backend, level: Status, k: nat, c: int, d: int)
    requires EntryOk(e) && FirstBest(e, p, b, level, k, c) && 1 <= d <= c
    ensures Reaches(e, p, b, level, KvPlaces(p, b)[k], d)
    ensures b == GpuOffload ==> AsksNoMore(e, p, KvPlaces(p, b)[k], d, c)
  {
    var place := KvPlaces(p, b)[k];
    hide PlaceLayers, EffectiveLayers, SlotEstimate, PoolAt, ParallelCap;
    MoreSlotsNeverBetter(e, p, b, place, d, c);
    SlotsGrow(e, p, d, c);
    SlotIsPositive(e, p, d);
    if b == GpuOffload {
      PlacementLayers(e, p, place, c);
      var planned := PlacementAt(e, p, b, place, c);
      LayersOf(SlotEstimate(e, p, c), p.gpuFree, e.meta.layers, place,
        EffectiveLayers(SlotEstimate(e, p, c), p.gpuFree, e.meta.layers, place));
      hide PlacementAt;
      FixedLayersMonotone(SlotEstimate(e, p, d), SlotEstimate(e, p, c), p.gpuFree, e.meta.layers, place,
        planned.layers);
    }
  }

  lemma LayersOf(e: Estimate, free: seq<int>, layers: int, place: KvPlace, n: int)
    ensures PlaceLayers(e, free, layers, place, n).layers == n
  {
  }

  // ------------------------------------------------- the plan and its label

  /** The guard of the skipped search, over all places: the disk is too small, or
      no KV placement has room for a single slot. */
  ghost predicate NothingFits(e: Entry, p: Profile, b: Backend)
    requires EntryOk(e)
  {
    DiskFit(e, p) == NoFit || forall place :: place in KvPlaces(p, b) ==> PoolAt(e, p, b, place, 1) == NoFit
  }

  /** No single slot has all the headroom. */
  ghost predicate NothingRoomy(e: Entry, p: Profile, b: Backend)
    requires EntryOk(e)
  {
    DiskFit(e, p) != Fit || forall place :: place in KvPlaces(p, b) ==> PoolAt(e, p, b, place, 1) != Fit
  }

  ghost predicate OutOfReach(e: Entry, p: Profile, b: Backend, level: Status)
    requires EntryOk(e)
  {
    || Badness(DiskFit(e, p)) > Badness(level)
    || forall place :: place in KvPlaces(p, b) ==> Badness(PoolAt(e, p, b, place, 1)) > Badness(level)
  }

  lemma OneSlotIsCandidate(e: Entry, p: Profile, b: Backend, level: Status, place: KvPlace)
    requires EntryOk(e) && place in KvPlaces(p, b)
    requires Badness(PoolAt(e, p, b, place, 1)) <= Badness(level) && Badness(DiskFit(e, p)) <= Badness(level)
    ensures !NoneBefore(e, p, b, level, |KvPlaces(p, b)|)
  {
    hide PoolAt, DiskFit, KvPlaces, ParallelCap;
    var j :| 0 <= j < |KvPlaces(p, b)| && KvPlaces(p, b)[j] == place;
    assert Reaches(e, p, b, level, KvPlaces(p, b)[j], 1);
  }

  /** A level is reached by some concurrency exactly if it is by one slot. */
  lemma ReachedByOneSlot(e: Entry, p: Profile, b: Backend, level: Status)
    requires EntryOk(e)
    ensures NoneBefore(e, p, b, level, |KvPlaces(p, b)|) <==> OutOfReach(e, p, b, level)
  {
    hide PoolAt, DiskFit, KvPlaces, ParallelCap;
    if OutOfReach(e, p, b, level) {
      forall j, d | 0 <= j < |KvPlaces(p, b)| && 1 <= d <= ParallelCap(e, p, b)
        ensures !Reaches(e, p, b, level, KvPlaces(p, b)[j], d)
      {
        assert KvPlaces(p, b)[j] in KvPlaces(p, b);
        MoreSlotsNeverBetter(e, p, b, KvPlaces(p, b)[j], 1, d);
      }
    } else {
      var place :| place in KvPlaces(p, b) && Badness(PoolAt(e, p, b, place, 1)) <= Badness(level);
      OneSlotIsCandidate(e, p, b, level, place);
    }
  }

  /** MAIN RESULT. The search over all concurrencies finds nothing exactly when no
      single slot fits, and nothing FIT exactly when none has all the headroom, which
      can be told before searching. */
  lemma NoCandidateExactly(e: Entry, p: Profile, b: Backend)
    requires EntryOk(e)
    ensures NoneBefore(e, p, b, Risky, |KvPlaces(p, b)|) <==> NothingFits(e, p, b)
    ensures NoneBefore(e, p, b, Fit, |KvPlaces(p, b)|) <==> NothingRoomy(e, p, b)
  {
    hide PoolAt, DiskFit, KvPlaces, NoneBefore;
    ReachedByOneSlot(e, p, b, Risky);
    ReachedByOneSlot(e, p, b, Fit);
  }

  function FallbackLayers(e: Entry, p: Profile): int
    requires EntryOk(e)
  {
    AutoLayers(FallbackEstimate(e, p), p.gpuFree, e.meta.layers, KvVram)
  }

  /** The pools hold the placement with no layer on a GPU, of which GPU 0 has cache and
      overhead only; or, without KV offload, RAM holds what the layers that the F16
      cache leaves room for do not take. */
  predicate FallbackRoom(e: Entry, p: Profile)
    requires EntryOk(e)
  {
    var estimate := FallbackEstimate(e, p);
    || Holds(PlaceLayers(estimate, p.gpuFree, e.meta.layers, KvVram, 0), PlanningRam(p), p.gpuFree, 1.0)
    || (&& !p.kvOffload && FallbackLayers(e, p) != 0
        && RestInRam(estimate, p.gpuFree, e.meta.layers, FallbackLayers(e, p), PlanningRam(p)))
  }

  predicate RestInRam(estimate: Estimate, free: seq<int>, layers: int, placed: int, ram: int) {
    && estimate.weight - WeightOnGpu(estimate.weight, layers, placed) + CpuOverhead <= ram
    && forall i :: 0 < i < |free| ==> free[i] >= 0
  }

  /** Eight-bit cache needs no more than sixteen-bit cache. */
  lemma SlotBelowFallback(e: Entry, p: Profile)
    requires EntryOk(e)
    ensures SlotEstimate(e, p, 1).kv <= FallbackEstimate(e, p).kv
    ensures SlotEstimate(e, p, 1).weight == FallbackEstimate(e, p).weight
    ensures SlotEstimate(e, p, 1).kv >= 1 && SlotEstimate(e, p, 1).weight >= 1
  {
    var context := ContextTarget(e, p);
    var x, y := KvPerSlot(e, context, Q8), KvPerSlot(e, context, F16);
    HalfTheCache(e, context);
    assert y == 2.0 * x;
    hide KvPerSlot;
    CacheOrder(x, y);
  }

  lemma HalfTheCache(e: Entry, context: int)
    requires EntryOk(e)
    ensures KvPerSlot(e, context, F16) == 2.0 * KvPerSlot(e, context, Q8)
  {
    hide HeadDim;
    var t := (e.meta.layers * (if e.meta.kvHeads != 0 then e.meta.kvHeads else e.meta.heads) * HeadDim(e.meta)) as real;
    assert KvPerToken(e.meta, Q8) == t * 2.0 / 1048576.0;
    assert KvPerToken(e.meta, F16) == t * 4.0 / 1048576.0;
    DoubleProduct(KvPerToken(e.meta, Q8), KvPerToken(e.meta, F16), context as real);
  }

  lemma DoubleProduct(x: real, y: real, c: real)
    requires y == 2.0 * x
    ensures y * c == 2.0 * (x * c)
  {
  }

  lemma CacheOrder(x: real, y: real)
    requires y == 2.0 * x
    ensures KvOf(x, 1) <= KvOf(y, 1)
  {
    hide Round;
    if x >= 0.0 {
      RoundMonotone(x * 1 as real, y * 1 as real);
    }
  }

  /** On the CPU the fallback needs at least what the single slot needed. */
  lemma CpuFallback(e: Entry, p: Profile)
    requires EntryOk(e) && PoolAt(e, p, Cpu, KvRam, 1) == NoFit
    ensures FitOf(FallbackPlacement(e, p, Cpu), PlanningRam(p), p.gpuFree) == NoFit
  {
    SlotBelowFallback(e, p);
    hide SlotEstimate, FitOf, EstimateMemory;
    LessFitsBetter(PlacementAt(e, p, Cpu, KvRam, 1), FallbackPlacement(e, p, Cpu), PlanningRam(p), p.gpuFree);
  }

  lemma Unscaled(required: int, room: int)
    ensures Scaled(required, 1.0) <= room as real <==> required <= room
  {
    assert Scaled(required, 1.0) == required as real;
  }

  lemma HoldsUnscaled(p: Placement, ram: int, free: seq<int>)
    requires |p.vram| == |free|
    ensures Holds(p, ram, free, 1.0) <==>
      Total(p.ram) <= ram && forall i :: 0 <= i < |free| ==> Total(p.vram[i]) <= free[i]
  {
    hide Scaled, Total;
    Unscaled(Total(p.ram), ram);
    forall i | 0 <= i < |free|
      ensures Scaled(Total(p.vram[i]), 1.0) <= Available(free, i) as real <==> Total(p.vram[i]) <= free[i]
    {
      Unscaled(Total(p.vram[i]), free[i]);
    }
  }

  /** What the pools have to hold with n layers and the cache in VRAM. */
  lemma HoldsIs(e: Estimate, free: seq<int>, layers: int, n: int, ram: int)
    requires free != [] && WeightOnGpu(e.weight, layers, n) <= e.weight
    ensures Holds(PlaceLayers(e, free, layers, KvVram, n), ram, free, 1.0) <==>
      RestInRam(e, free, layers, n, ram) && WeightOnGpu(e.weight, layers, n) + e.kv + FixedVram <= free[0]
  {
    hide WeightOnGpu, Holds;
    var placed := PlaceLayers(e, free, layers, KvVram, n);
    HoldsUnscaled(placed, ram, free);
    assert Total(placed.ram) == e.weight - WeightOnGpu(e.weight, layers, n) + CpuOverhead;
    forall i | 0 <= i < |free|
      ensures Total(placed.vram[i]) == if i == 0 then WeightOnGpu(e.weight, layers, n) + e.kv + FixedVram else 0
    {
    }
  }

  lemma SafeFits(need: int, safe: int, free: int)
    requires 0 <= need <= safe && safe as real * HeadroomMultiplier <= free as real
    ensures need <= free
  {
  }

  /** With layers chosen GPU 0 keeps its headroom, so that RAM decides; and RAM holds
      less than without them. */
  lemma LayersHold(e: Estimate, free: seq<int>, layers: int, ram: int)
    requires e.weight >= 1 && e.kv >= 1 && AutoLayers(e, free, layers, KvVram) != 0
    ensures
      var n := AutoLayers(e, free, layers, KvVram);
      && (Holds(PlaceLayers(e, free, layers, KvVram, n), ram, free, 1.0) <==> RestInRam(e, free, layers, n, ram))
      && (Holds(PlaceLayers(e, free, layers, KvVram, 0), ram, free, 1.0) ==> RestInRam(e, free, layers, n, ram))
  {
    var n := AutoLayers(e, free, layers, KvVram);
    ChosenMeansRoom(e, free, layers, KvVram);
    LayersAreMaximal(e, free, layers, KvVram);
    MoreLayersMoreWeight(e.weight, layers, 0, n);
    PlacedAtMostAll(e.weight, layers, n);
    PlacedAtMostAll(e.weight, layers, 0);
    SafeIsSafe(free);
    hide WeightOnGpu, AutoLayers, SafeCapacity, Holds, PlaceLayers;
    SafeFits(WeightOnGpu(e.weight, layers, n) + e.kv + FixedVram, SafeCapacity(free), free[0]);
    HoldsIs(e, free, layers, n, ram);
    HoldsIs(e, free, layers, 0, ram);
  }

  /** With KV offload a fallback that holds with layers would have been found. */
  lemma OffloadFindsLayers(e: Entry, p: Profile)
    requires EntryOk(e) && p.kvOffload && FallbackLayers(e, p) != 0
    requires PoolAt(e, p, GpuOffload, KvVram, 1) == NoFit
    ensures FitOf(FallbackPlacement(e, p, GpuOffload), PlanningRam(p), p.gpuFree) == NoFit
  {
    SlotBelowFallback(e, p);
    PlacementLayers(e, p, KvVram, 1);
    hide FitOf, SlotEstimate, EstimateMemory, PlaceLayers, PlacementAt;
    FewerSlotsAskLess(SlotEstimate(e, p, 1), FallbackEstimate(e, p), p.gpuFree, e.meta.layers, KvVram, PlanningRam(p));
  }

  /** The fallback's pools hold exactly if its room is there. */
  lemma FallbackHolds(e: Entry, p: Profile)
    requires EntryOk(e) && forall place :: place in KvPlaces(p, GpuOffload) ==>
      PoolAt(e, p, GpuOffload, place, 1) == NoFit
    ensures FitOf(FallbackPlacement(e, p, GpuOffload), PlanningRam(p), p.gpuFree) != NoFit <==> FallbackRoom(e, p)
  {
    hide PoolAt, Holds, PlaceLayers, AutoLayers, EstimateMemory, RestInRam;
    var estimate := FallbackEstimate(e, p);
    SlotBelowFallback(e, p);
    if FallbackLayers(e, p) != 0 {
      LayersHold(estimate, p.gpuFree, e.meta.layers, PlanningRam(p));
      if p.kvOffload {
        assert KvVram in KvPlaces(p, GpuOffload);
        OffloadFindsLayers(e, p);
      }
    }
  }

  /** build_serving_plan for llama.cpp: with a handoff, preserved holds its fit
      status and a plan that says NOFIT is refused. The unavailable plan comes out
      when no single slot fits; with a handoff only on GPU offload, with disk and
      pools enough for a placement that no candidate may have. */
  method BuildServingPlan(e: Entry, p: Profile, b: Backend, preserved: Option<Status>)
    returns (r: Result<ServingPlan, string>)
    requires EntryOk(e)
    ensures r.Ok? ==> SearchResult(e, p, b, preserved, r)
    ensures r.Ok? && preserved.Some? ==> r.value.fitStatus != NoFit
    ensures (r.Ok? && r.value.candidate == Unavailable) <==>
      NothingFits(e, p, b)
      && (preserved.Some? ==> b == GpuOffload && DiskFit(e, p) != NoFit && FallbackRoom(e, p))
    ensures r.Err? <==>
      preserved.Some?
      && if NothingFits(e, p, b) then b == Cpu || DiskFit(e, p) == NoFit || !FallbackRoom(e, p)
         else preserved.value == NoFit || (preserved.value == Fit && NothingRoomy(e, p, b))
  {
    hide PlacementAt, FitOf, ParallelCap, Reaches, DiskFit, PoolAt, NothingFits, NothingRoomy, NoneBefore, SearchResult,
         FallbackRoom, FallbackPlan;
    r := PlanLlamacpp(e, p, b, preserved);
    ResultLabel(e, p, b, preserved, r);
    NoCandidateExactly(e, p, b);
    FallbackStatus(e, p, b);
    if r.Ok? && preserved.Some? && r.value.fitStatus == NoFit {
      r := Err(Unresolvable);
    }
  }

  /** MAIN RESULT. Where no single slot fits, the fallback says otherwise only on
      GPU offload, and exactly when the disk and its room are there. */
  lemma FallbackStatus(e: Entry, p: Profile, b: Backend)
    requires EntryOk(e)
    ensures NothingFits(e, p, b) ==>
      (FallbackPlan(e, p, b).fitStatus != NoFit <==> b == GpuOffload && DiskFit(e, p) != NoFit && FallbackRoom(e, p))
    ensures FallbackPlan(e, p, b).candidate == Unavailable
  {
    hide PoolAt, DiskFit, FallbackRoom, FitOf, FallbackPlacement;
    if NothingFits(e, p, b) && DiskFit(e, p) != NoFit {
      if b == Cpu {
        assert KvRam in KvPlaces(p, b);
        CpuFallback(e, p);
      } else {
        FallbackHolds(e, p);
      }
    }
  }

  /** Only a search with no candidate at all ends in the unavailable plan, and only one
      that was promised FIT and found none is refused. */
  lemma ResultLabel(e: Entry, p: Profile, b: Backend, preserved: Option<Status>, r: Result<ServingPlan, string>)
    requires EntryOk(e) && SearchResult(e, p, b, preserved, r)
    ensures (r.Ok? && r.value.candidate == Unavailable) <==> NoneBefore(e, p, b, Risky, |KvPlaces(p, b)|)
    ensures NoneBefore(e, p, b, Risky, |KvPlaces(p, b)|) ==> r == Ok(FallbackPlan(e, p, b))
    ensures !NoneBefore(e, p, b, Risky, |KvPlaces(p, b)|) ==>
      && (r.Err? <==> preserved == Some(Fit) && NoneBefore(e, p, b, Fit, |KvPlaces(p, b)|))
      && (r.Ok? && preserved.Some? ==> r.value.fitStatus == preserved.value)
  {
    hide PlacementAt, FitOf, ParallelCap, DiskFit, StatusAt;
    forall k: nat, c, level | FirstBest(e, p, b, level, k, c) && (level == Fit || level == Risky)
      ensures !NoneBefore(e, p, b, Risky, |KvPlaces(p, b)|) && !NoneBefore(e, p, b, level, |KvPlaces(p, b)|)
    {
      assert Reaches(e, p, b, Risky, KvPlaces(p, b)[k], c);
      assert Reaches(e, p, b, level, KvPlaces(p, b)[k], c);
    }
  }

  // ---------------------------------------------- the fallback's own fit status

  /** Four layers of 2500 MB each over a GPU with 4000 MB free. */
  function BigLayers(): Entry {
    Entry(Metadata(9.765625, 4, 1, 1, 1, 1, 8192), 1.0, 0, false)
  }

  function SmallGpu(): Profile {
    Profile(100000, 0, [4000], [4000], 0, 8192, true)
  }

  lemma BigLayersEstimate(kv: KvTypes)
    requires kv == Q8 || kv == F16
    ensures EntryOk(BigLayers())
    ensures EstimateMemory(BigLayers(), 8192, 1, kv, false) == Estimate(10000, 1, CpuOverhead, 0, 10513)
  {
  }

  lemma OneLayerTooBig(place: KvPlace)
    requires EntryOk(BigLayers())
    ensures PoolAt(BigLayers(), SmallGpu(), GpuOffload, place, 1) == NoFit
  {
    var e := Estimate(10000, 1, CpuOverhead, 0, 10513);
    BigLayersEstimate(Q8);
    assert SlotEstimate(BigLayers(), SmallGpu(), 1) == e;
    assert SafeCapacity([4000]) == 3200;
    assert PerLayer(10000, 4) == 2500.0;
    assert AutoLayers(e, [4000], 4, place) == 0;
    assert WeightOnGpu(10000, 4, 1) == 2500;
    PlacementLayers(BigLayers(), SmallGpu(), place, 1);
    assert Total(PlaceLayers(e, [4000], 4, place, 1).vram[0]) >= 4512;
  }

  lemma FallbackFits()
    ensures EntryOk(BigLayers())
    ensures FallbackPlan(BigLayers(), SmallGpu(), GpuOffload).fitStatus == Fit
  {
    BigLayersEstimate(F16);
    var e := Estimate(10000, 1, CpuOverhead, 0, 10513);
    assert SafeCapacity([4000]) == 3200;
    assert PerLayer(10000, 4) == 2500.0;
    assert AutoLayers(e, [4000], 4, KvVram) == 0;
    assert WeightOnGpu(10000, 4, 0) == 0;
    var placement := FallbackPlacement(BigLayers(), SmallGpu(), GpuOffload);
    assert placement == PlaceLayers(e, [4000], 4, KvVram, 0);
    assert Total(placement.vram[0]) == 2013 && Total(placement.ram) == 10512;
    assert Holds(placement, 100000, [4000], HeadroomMultiplier);
  }

  /** MAIN RESULT. The fallback may call itself fit although no candidate fits:
      it is measured without the layer every candidate must hold. */
  lemma FallbackCanClaimFit()
    ensures EntryOk(BigLayers())
    ensures NothingFits(BigLayers(), SmallGpu(), GpuOffload)
    ensures FallbackPlan(BigLayers(), SmallGpu(), GpuOffload).fitStatus == Fit
  {
    hide PoolAt, FallbackPlan, BigLayers, SmallGpu;
    FallbackFits();
    OneLayerTooBig(KvVram);
    OneLayerTooBig(KvRam);
  }
}
