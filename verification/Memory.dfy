/** app/llm_installation/planner.py, the memory half: estimates, placement of
    weights and KV cache over RAM and GPUs, and the fit test. Ratios are reals. */
module Memory {
  const HeadroomMultiplier := 1.25
  const DiskHeadroom := 1.15
  const CpuOverhead := 512
  const GpuOverhead := 512
  const CudaContext := 1500
  const FixedVram := GpuOverhead + CudaContext
  const DefaultContext := 8192
  const MaxConcurrency := 32

  // ------------------------------------------------------------- arithmetic

  /** Python's round on a float: to nearest, a tie to the even neighbour. */
  function Round(x: real): (r: int)
    ensures x - 0.5 <= r as real <= x + 0.5
  {
    var f := x.Floor;
    if x - f as real < 0.5 then f
    else if x - f as real > 0.5 then f + 1
    else if f % 2 == 0 then f
    else f + 1
  }

  lemma RoundMonotone(x: real, y: real)
    requires x <= y
    ensures Round(x) <= Round(y)
  {
  }

  function Ceil(x: real): (r: int)
    ensures x <= r as real < x + 1.0
  {
    -((-x).Floor)
  }

  function Max(a: int, b: int): int {
    if a >= b then a else b
  }

  function Min(a: int, b: int): int {
    if a <= b then a else b
  }

  // ----------------------------------------------------------------- models

  datatype Metadata = Metadata(
    parametersB: real, layers: int, kvHeads: int, heads: int, headDim: int, hidden: int, maxContext: int)

  /** quantBytes is the looked-up size of one parameter, diskRequired the resolved
      download size if it is known. */
  datatype Entry = Entry(meta: Metadata, quantBytes: real, diskRequired: int, diskKnown: bool)

  /** gpuFree and gpuTotal as the profile getters return them. */
  datatype Profile = Profile(
    ramMb: int, containerLimit: int, gpuFree: seq<int>, gpuTotal: seq<int>, diskFree: int,
    contextCap: int, kvOffload: bool)

  datatype KvTypes = KvTypes(keyBytes: real, valueBytes: real)

  const Q8 := KvTypes(1.0, 1.0)
  const F16 := KvTypes(2.0, 2.0)

  /** The divisions the estimate makes are defined, and there is a weight to place. */
  predicate EntryOk(e: Entry) {
    && (e.meta.headDim != 0 || e.meta.heads != 0)
    && WeightOf(e) >= 1
  }

  function PlanningRam(p: Profile): int {
    if p.containerLimit > 0 then Min(p.ramMb, p.containerLimit) else p.ramMb
  }

  function HeadDim(m: Metadata): int
    requires m.headDim != 0 || m.heads != 0
  {
    if m.headDim != 0 then m.headDim else (m.hidden as real / m.heads as real).Floor
  }

  function KvPerToken(m: Metadata, kv: KvTypes): real
    requires m.headDim != 0 || m.heads != 0
  {
    (m.layers * (if m.kvHeads != 0 then m.kvHeads else m.heads) * HeadDim(m)) as real
      * (kv.keyBytes + kv.valueBytes) / 1048576.0
  }

  function WeightOf(e: Entry): int {
    Round(e.meta.parametersB * e.quantBytes * 1024.0)
  }

  /** Cache of `slots` slots of `perSlot` MB each, rounded once. */
  function KvOf(perSlot: real, slots: int): (kv: int)
    ensures kv >= 1
  {
    Max(1, Round(perSlot * slots as real))
  }

  /** The unrounded cache of one slot: per token, times the context length. */
  function KvPerSlot(e: Entry, context: int, kv: KvTypes): real
    requires EntryOk(e)
  {
    KvPerToken(e.meta, kv) * context as real
  }

  /** MemoryEstimate */
  datatype Estimate = Estimate(weight: int, kv: int, overhead: int, cuda: int, total: int)

  /** estimate_model_memory */
  function EstimateMemory(e: Entry, context: int, concurrency: int, kv: KvTypes, cuda: bool): (r: Estimate)
    requires EntryOk(e)
    ensures r.weight >= 1 && r.kv >= 1
  {
    var weight := WeightOf(e);
    var cache := KvOf(KvPerSlot(e, context, kv), concurrency);
    var context_ := if cuda then CudaContext else 0;
    Estimate(weight, cache, CpuOverhead, context_, weight + cache + CpuOverhead + context_)
  }

  /** More slots never need less cache. */
  lemma KvMonotone(x: real, c: int, d: int)
    requires 1 <= c <= d
    ensures KvOf(x, c) <= KvOf(x, d)
  {
    hide Round;
    if x >= 0.0 {
      MulMonotone(c as real, d as real, x);
      RoundMonotone(x * c as real, x * d as real);
    } else {
      MulMonotone(0.0, c as real, -x);
    }
  }

  // -------------------------------------------------------------- placements

  datatype Parts = Parts(weights: int, kv: int, overhead: int, cuda: int)

  const NoParts := Parts(0, 0, 0, 0)

  function Total(p: Parts): int {
    p.weights + p.kv + p.overhead + p.cuda
  }

  /** MemoryPlacement; requirements are the totals of the parts. */
  datatype Placement = Placement(ram: Parts, vram: seq<Parts>, layers: int)

  /** _place_cpu */
  function PlaceCpu(e: Estimate, gpus: nat): Placement {
    Placement(Parts(e.weight, e.kv, e.overhead, 0), seq(gpus, i => NoParts), 0)
  }

  /** _split_evenly */
  function SplitEvenly(total: int, count: nat): (shares: seq<int>)
    ensures |shares| == count
  {
    seq(count, i requires 0 <= i < count => total / count + (if i < total % count then 1 else 0))
  }

  function Sum(xs: seq<int>): int {
    if xs == [] then 0 else xs[0] + Sum(xs[1..])
  }

  lemma {:induction false} SumFrom(total: int, count: nat, k: nat)
    requires k <= count && count > 0
    ensures Sum(SplitEvenly(total, count)[k..]) ==
      (count - k) * (total / count) + (if k < total % count then total % count - k else 0)
    decreases count - k
  {
    var shares := SplitEvenly(total, count);
    if k == count {
      assert shares[k..] == [];
    } else {
      SumFrom(total, count, k + 1);
      assert shares[k..][1..] == shares[k + 1..];
      assert (count - k) * (total / count) == (count - (k + 1)) * (total / count) + total / count;
    }
  }

  /** MAIN RESULT. An even split loses nothing and differs by at most one. */
  lemma SplitIsFair(total: int, count: nat)
    requires count > 0
    ensures Sum(SplitEvenly(total, count)) == total
    ensures forall i, j :: 0 <= i < count && 0 <= j < count ==>
      -1 <= SplitEvenly(total, count)[i] - SplitEvenly(total, count)[j] <= 1
  {
    SumFrom(total, count, 0);
    assert SplitEvenly(total, count)[0..] == SplitEvenly(total, count);
    assert count * (total / count) + total % count == total;
  }

  /** _place_vllm: weights and cache split over all GPUs. */
  function PlaceVllm(e: Estimate, gpus: nat): Placement {
    var weights, kv := SplitEvenly(e.weight, gpus), SplitEvenly(e.kv, gpus);
    Placement(Parts(0, 0, CpuOverhead, 0),
              seq(gpus, i requires 0 <= i < gpus => Parts(weights[i], kv[i], GpuOverhead, CudaContext)), 0)
  }

  datatype KvPlace = KvVram | KvRam

  function PerLayer(weight: int, layers: int): real {
    weight as real / Max(1, layers) as real
  }

  function SafeCapacity(free: seq<int>): int {
    if free == [] then 0 else (free[0] as real / HeadroomMultiplier).Floor
  }

  function KvOnGpu(e: Estimate, place: KvPlace): int {
    if place == KvVram then e.kv else 0
  }

  /** The number of layers placed when none is forced. */
  function AutoLayers(e: Estimate, free: seq<int>, layers: int, place: KvPlace): int
    requires e.weight >= 1
  {
    var room := Max(0, SafeCapacity(free) - (FixedVram + KvOnGpu(e, place)));
    PerLayerPositive(e.weight, layers);
    ClampLayers((room as real / PerLayer(e.weight, layers)).Floor, layers)
  }

  function ClampLayers(wanted: int, layers: int): int {
    Max(0, Min(layers, wanted))
  }

  lemma PerLayerPositive(weight: int, layers: int)
    requires weight >= 1
    ensures PerLayer(weight, layers) > 0.0
  {
  }

  function WeightOnGpu(weight: int, layers: int, placed: int): int {
    if placed == layers then weight else Ceil(placed as real * PerLayer(weight, layers))
  }

  /** The placement with `placed` layers on GPU 0. */
  function PlaceLayers(e: Estimate, free: seq<int>, layers: int, place: KvPlace, placed: int): Placement {
    var onGpu := WeightOnGpu(e.weight, layers, placed);
    Placement(
      Parts(Max(0, e.weight - onGpu), if place == KvRam then e.kv else 0, CpuOverhead, 0),
      seq(|free|, i => if i == 0 then Parts(onGpu, KvOnGpu(e, place), GpuOverhead, CudaContext) else NoParts),
      placed)
  }

  /** _place_llamacpp_gpu; force None lets it choose. */
  function PlaceLlamacpp(e: Estimate, free: seq<int>, layers: int, place: KvPlace, forced: bool): Placement
    requires e.weight >= 1
  {
    PlaceLayers(e, free, layers, place, if forced then ClampLayers(1, layers) else AutoLayers(e, free, layers, place))
  }

  // ------------------------------------------------------------- layer count

  lemma MulMonotone(x: real, y: real, p: real)
    requires x <= y && p >= 0.0
    ensures x * p <= y * p
  {
  }

  lemma PlacedAtMostAll(weight: int, layers: int, placed: int)
    requires weight >= 1 && 0 <= placed <= layers
    ensures 0 <= WeightOnGpu(weight, layers, placed) <= weight
  {
  }

  /** More layers never mean less weight on the GPU. */
  lemma MoreLayersMoreWeight(weight: int, layers: int, a: int, b: int)
    requires weight >= 1 && 0 <= a <= b <= layers
    ensures WeightOnGpu(weight, layers, a) <= WeightOnGpu(weight, layers, b)
  {
    PlacedAtMostAll(weight, layers, a);
    if b != layers {
      PerLayerPositive(weight, layers);
      MulMonotone(a as real, b as real, PerLayer(weight, layers));
    }
  }

  function Weights(xs: seq<Parts>): int {
    if xs == [] then 0 else xs[0].weights + Weights(xs[1..])
  }

  lemma {:induction false} NoWeights(xs: seq<Parts>)
    requires forall i :: 0 <= i < |xs| ==> xs[i] == NoParts
    ensures Weights(xs) == 0
  {
    if xs != [] {
      NoWeights(xs[1..]);
    }
  }

  /** MAIN RESULT. Whatever the number of layers, chosen or forced, RAM and VRAM
      together hold the model's weights exactly once. */
  lemma WeightsPlacedOnce(e: Estimate, free: seq<int>, layers: int, place: KvPlace, forced: bool)
    requires e.weight >= 1 && free != []
    ensures
      var p := PlaceLlamacpp(e, free, layers, place, forced);
      p.ram.weights + Weights(p.vram) == e.weight && p.ram.weights >= 0 && p.vram[0].weights >= 0
  {
    var p := PlaceLlamacpp(e, free, layers, place, forced);
    NoWeights(p.vram[1..]);
    if layers >= 0 {
      PlacedAtMostAll(e.weight, layers, p.layers);
    } else {
      assert 0 as real * PerLayer(e.weight, layers) == 0.0;
    }
  }

  lemma FloorTimes(room: int, p: real, k: int)
    requires p > 0.0 && room >= 0
    ensures k <= (room as real / p).Floor <==> k as real * p <= room as real
  {
    var q := room as real / p;
    DivTimes(room as real, p);
    ScaleOrder(k as real, q, p);
    assert k <= q.Floor <==> k as real <= q;
  }

  lemma DivTimes(x: real, p: real)
    requires p != 0.0
    ensures (x / p) * p == x
  {
  }

  lemma ScaleOrder(a: real, b: real, p: real)
    requires p > 0.0
    ensures a <= b <==> a * p <= b * p
  {
  }

  lemma MulStrict(x: real, y: real, p: real)
    requires x < y && p > 0.0
    ensures x * p < y * p
  {
  }

  /** MAIN RESULT. When cache and overhead fit the safe capacity of GPU 0, the
      chosen layer count keeps GPU 0 inside it, so a quarter of headroom stays
      free, and is maximal: all layers are placed, or one more breaks it. */
  lemma LayersAreMaximal(e: Estimate, free: seq<int>, layers: int, place: KvPlace)
    requires e.weight >= 1 && free != [] && layers != 0
    requires FixedVram + KvOnGpu(e, place) <= SafeCapacity(free)
    ensures
      var n := AutoLayers(e, free, layers, place);
      var fixed := FixedVram + KvOnGpu(e, place);
      && WeightOnGpu(e.weight, layers, n) + fixed <= SafeCapacity(free)
      && Total(PlaceLayers(e, free, layers, place, n).vram[0]) as real * HeadroomMultiplier <= free[0] as real
      && (0 <= n < layers ==> WeightOnGpu(e.weight, layers, n + 1) + fixed > SafeCapacity(free))
      && (layers > 0 ==> 0 <= n <= layers)
  {
    var room := SafeCapacity(free) - (FixedVram + KvOnGpu(e, place));
    var n := AutoLayers(e, free, layers, place);
    var wanted := (room as real / PerLayer(e.weight, layers)).Floor;
    PerLayerPositive(e.weight, layers);
    assert n == ClampLayers(wanted, layers);
    SafeIsSafe(free);
    if layers > 0 {
      NotNegative(room, PerLayer(e.weight, layers));
      LayersFit(e.weight, layers, n, room);
      if n < layers {
        LayersFit(e.weight, layers, n + 1, room);
      }
    } else {
      assert 0 as real * PerLayer(e.weight, layers) == 0.0;
    }
    hide WeightOnGpu, SafeCapacity, PerLayer, AutoLayers;
    HeadroomFollows(Total(PlaceLayers(e, free, layers, place, n).vram[0]), SafeCapacity(free), free[0]);
  }

  lemma SafeIsSafe(free: seq<int>)
    requires free != []
    ensures SafeCapacity(free) as real * HeadroomMultiplier <= free[0] as real
  {
  }

  lemma HeadroomFollows(need: int, safe: int, free: int)
    requires need <= safe && safe as real * HeadroomMultiplier <= free as real
    ensures need as real * HeadroomMultiplier <= free as real
  {
  }

  lemma NotNegative(room: int, p: real)
    requires room >= 0 && p > 0.0
    ensures (room as real / p).Floor >= 0
  {
  }

  /** k layers fit the room exactly when k is at most the quotient's floor. */
  lemma LayersFit(weight: int, layers: int, k: int, room: int)
    requires weight >= 1 && 0 <= k <= layers && layers >= 1 && room >= 0
    ensures PerLayer(weight, layers) > 0.0
    ensures WeightOnGpu(weight, layers, k) <= room <==> k <= (room as real / PerLayer(weight, layers)).Floor
  {
    PerLayerPositive(weight, layers);
    var p := PerLayer(weight, layers);
    FloorTimes(room, p, k);
    if k == layers {
      AllLayers(weight, layers);
    } else {
      CeilFits(k as real * p, room);
    }
  }

  lemma AllLayers(weight: int, layers: int)
    requires layers >= 1
    ensures layers as real * PerLayer(weight, layers) == weight as real
  {
  }

  lemma CeilFits(x: real, room: int)
    ensures Ceil(x) <= room <==> x <= room as real
  {
  }

  // --------------------------------------------------------------------- fit

  datatype Status = Fit | Risky | NoFit

  /** Every pool holds `factor` times what is asked of it. */
  predicate Holds(p: Placement, ram: int, free: seq<int>, factor: real) {
    && Scaled(Total(p.ram), factor) <= ram as real
    && forall i :: 0 <= i < |p.vram| ==> Scaled(Total(p.vram[i]), factor) <= Available(free, i) as real
  }

  function Scaled(required: int, factor: real): real {
    required as real * factor
  }

  function Available(free: seq<int>, i: nat): int {
    if i < |free| then free[i] else 0
  }

  /** What the fit test should say: nothing overflows, and all pools keep their
      headroom. */
  function FitOf(p: Placement, ram: int, free: seq<int>): Status {
    if !Holds(p, ram, free, 1.0) then NoFit
    else if !Holds(p, ram, free, HeadroomMultiplier) then Risky
    else Fit
  }

  /** _pool_fit, collecting hard and risky findings over the pools. */
  method PoolFit(p: Placement, ram: int, free: seq<int>) returns (status: Status)
    ensures status == FitOf(p, ram, free)
  {
    var hard, risky := 0, 0;
    if Total(p.ram) > ram {
      hard := hard + 1;
    } else if Total(p.ram) as real * HeadroomMultiplier > ram as real {
      risky := risky + 1;
    }
    for i := 0 to |p.vram|
      invariant hard >= 0 && risky >= 0
      invariant hard == 0 <==> Total(p.ram) <= ram && forall k :: 0 <= k < i ==> Total(p.vram[k]) <= Available(free, k)
      invariant hard == 0 ==> (risky == 0 <==>
        && Total(p.ram) as real * HeadroomMultiplier <= ram as real
        && forall k :: 0 <= k < i ==> Total(p.vram[k]) as real * HeadroomMultiplier <= Available(free, k) as real)
    {
      var available := if i < |free| then free[i] else 0;
      if Total(p.vram[i]) > available {
        hard := hard + 1;
      } else if Total(p.vram[i]) as real * HeadroomMultiplier > available as real {
        risky := risky + 1;
      }
    }
    if hard > 0 {
      return NoFit;
    }
    return if risky > 0 then Risky else Fit;
  }

  /** _disk_fit */
  function DiskFit(e: Entry, p: Profile): Status {
    if !e.diskKnown then Fit
    else if e.diskRequired > p.diskFree then NoFit
    else if e.diskRequired as real * DiskHeadroom > p.diskFree as real then Risky
    else Fit
  }

  /** _combine_status: the worse of the two. */
  function Combine(a: Status, b: Status): Status {
    if a == NoFit || b == NoFit then NoFit else if a == Risky || b == Risky then Risky else Fit
  }

  function Badness(s: Status): nat {
    match s case Fit => 0 case Risky => 1 case NoFit => 2
  }

  /** The pool keeps its headroom. */
  predicate Roomy(p: Placement, free: seq<int>, i: nat)
    requires i < |p.vram|
  {
    Scaled(Total(p.vram[i]), HeadroomMultiplier) <= Available(free, i) as real
  }

  /** A placement that asks less of every pool fits at least as well. */
  lemma LessFitsBetter(p: Placement, q: Placement, ram: int, free: seq<int>)
    requires |p.vram| == |q.vram| && Total(p.ram) <= Total(q.ram)
    requires forall i :: 0 <= i < |p.vram| ==>
      (Total(p.vram[i]) <= Total(q.vram[i]) || Roomy(p, free, i))
    requires forall i :: 0 <= i < |p.vram| ==> Total(p.vram[i]) >= 0
    ensures Badness(FitOf(p, ram, free)) <= Badness(FitOf(q, ram, free))
  {
  }

}
