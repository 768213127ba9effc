/** app/llm_installation/rag_runtime_config.py (normalize_serving_profile) and
    config_store.py: the serving profile, its runtime arguments, and calibration
    generations staged one from another. */
module ServingConfig {
  import opened Wrappers
  import Memory
  import Llamacpp

  // ---------------------------------------------------------------- values

  /** What str() makes of a number, a list or an object. */
  type Rendering = s: string | s != "" witness "?"

  /** JSON values as the profile holds them; `number` is what int() makes of a text. */
  datatype Value =
    | IntV(i: int)
    | RealV(r: real, text: Rendering)
    | BoolV(b: bool)
    | TextV(s: string, number: Option<int>)
    | NoneV
    | OtherV(truthy: bool, text: Rendering)

  datatype Field =
    | SafeCeiling | Serving | Concurrency | Parallel | MaxSeqs | ContextLength | ServerCtx | MaxBatched
    | CalibrationStatus | RunId | SourceGeneration | OriginalGeneration | UpdatedAt
    | Extra(name: string)

  type Profile = map<Field, Value>

  function Digit(d: nat): char
    requires d < 10
  {
    "0123456789"[d]
  }

  function Decimal(n: int): (s: string)
    ensures s != ""
    decreases if n < 0 then 1 else 0, if n < 0 then -n else n
  {
    if n < 0 then "-" + Decimal(-n)
    else if n < 10 then [Digit(n)]
    else Decimal(n / 10) + [Digit(n % 10)]
  }

  /** str(value) */
  function Shown(v: Value): string {
    match v
    case IntV(i) => Decimal(i)
    case RealV(_, text) => text
    case BoolV(b) => if b then "True" else "False"
    case TextV(s, _) => s
    case NoneV => "None"
    case OtherV(_, text) => text
  }

  predicate Truthy(v: Value) {
    match v
    case IntV(i) => i != 0
    case RealV(r, _) => r != 0.0
    case BoolV(b) => b
    case TextV(s, _) => s != ""
    case NoneV => false
    case OtherV(t, _) => t
  }

  function Get(p: Profile, f: Field): Value {
    if f in p then p[f] else NoneV
  }

  function AsText(s: string): Value {
    TextV(s, None)
  }

  /** int(): a float loses its fraction, towards zero. */
  function Truncated(r: real): int {
    if r >= 0.0 then r.Floor else -((-r).Floor)
  }

  /** _positive_int */
  function PositiveInt(v: Value): (n: Option<int>)
    ensures n.Some? ==> n.value >= 1
  {
    var parsed := match v
      case IntV(i) => Some(i)
      case RealV(r, _) => Some(Truncated(r))
      case TextV(_, number) => number
      case _ => None;
    if parsed.Some? && parsed.value >= 1 then parsed else None
  }

  /** The first field, in this order, that holds a positive number. */
  function FirstPositive(p: Profile, fields: seq<Field>): (n: int)
    ensures n >= 1
  {
    if fields == [] then 1
    else
      var n := PositiveInt(Get(p, fields[0]));
      if n.Some? then n.value else FirstPositive(p, fields[1..])
  }

  function CeilingOf(p: Profile): (n: int)
    ensures n >= 1
  {
    FirstPositive(p, [SafeCeiling, Concurrency, Parallel, MaxSeqs])
  }

  function ServingOf(p: Profile): (n: int)
    ensures 1 <= n <= CeilingOf(p)
  {
    Memory.Min(FirstPositive(p, [Serving]), CeilingOf(p))
  }

  function StatusOf(p: Profile): string {
    if Truthy(Get(p, CalibrationStatus)) then Shown(Get(p, CalibrationStatus)) else "pending"
  }

  // ----------------------------------------------------------- normalization

  function Slots(p: Profile, ceiling: int, serving: int, status: string): Profile {
    p[SafeCeiling := IntV(ceiling)][Serving := IntV(serving)][CalibrationStatus := AsText(status)]
     [Concurrency := IntV(serving)][Parallel := IntV(serving)][MaxSeqs := IntV(serving)]
  }

  function Contexts(p: Profile, context: int, serving: int): Profile {
    p[ServerCtx := IntV(context * serving)][MaxBatched := IntV(context * serving)]
  }

  /** normalize_serving_profile on a dictionary */
  function Normalize(p: Profile): Profile {
    var slots := Slots(p, CeilingOf(p), ServingOf(p), StatusOf(p));
    var context := PositiveInt(Get(p, ContextLength));
    if context.Some? then Contexts(slots, context.value, ServingOf(p)) else slots
  }

  method NormalizeServingProfile(p: Profile) returns (normalized: Profile)
    ensures normalized == Normalize(p)
  {
    normalized := p;
    var ceiling := CeilingOf(p);
    var serving := FirstPositive(p, [Serving]);
    serving := Memory.Min(serving, ceiling);
    var status := if Truthy(Get(p, CalibrationStatus)) then Shown(Get(p, CalibrationStatus)) else "pending";
    normalized := normalized[SafeCeiling := IntV(ceiling)];
    normalized := normalized[Serving := IntV(serving)];
    normalized := normalized[CalibrationStatus := AsText(status)];
    normalized := normalized[Concurrency := IntV(serving)];
    normalized := normalized[Parallel := IntV(serving)];
    normalized := normalized[MaxSeqs := IntV(serving)];
    var context := PositiveInt(Get(p, ContextLength));
    if context.Some? {
      normalized := normalized[ServerCtx := IntV(context.value * serving)];
      normalized := normalized[MaxBatched := IntV(context.value * serving)];
    }
  }

  /** The profile says one number of slots, at most the ceiling, everywhere. */
  predicate Consistent(p: Profile) {
    && SafeCeiling in p && p[SafeCeiling].IntV? && Serving in p && p[Serving].IntV?
    && 1 <= p[Serving].i <= p[SafeCeiling].i
    && Get(p, Concurrency) == p[Serving] && Get(p, Parallel) == p[Serving] && Get(p, MaxSeqs) == p[Serving]
    && var context := PositiveInt(Get(p, ContextLength));
       context.Some? ==>
         Get(p, ServerCtx) == IntV(context.value * p[Serving].i)
           && Get(p, MaxBatched) == IntV(context.value * p[Serving].i)
  }

  /** Any profile becomes consistent, keeps every other field, and
      a ceiling or serving value that was usable. */
  lemma NormalizeIsConsistent(p: Profile)
    ensures Consistent(Normalize(p))
    ensures CeilingOf(Normalize(p)) == CeilingOf(p) && ServingOf(Normalize(p)) == ServingOf(p)
    ensures forall n :: Get(Normalize(p), Extra(n)) == Get(p, Extra(n))
    ensures Get(Normalize(p), ContextLength) == Get(p, ContextLength)
    ensures Get(Normalize(p), OriginalGeneration) == Get(p, OriginalGeneration)
  {
  }

  /** Normalizing twice is normalizing once. */
  lemma NormalizeIdempotent(p: Profile)
    ensures Normalize(Normalize(p)) == Normalize(p)
  {
    var q := Normalize(p);
    NormalizeIsConsistent(p);
    StatusStays(p);
    assert Normalize(q).Keys == q.Keys;
    assert forall f :: f in q ==> Normalize(q)[f] == q[f];
  }

  lemma StatusStays(p: Profile)
    ensures Get(Normalize(p), CalibrationStatus) == AsText(StatusOf(p))
    ensures StatusOf(p) != "" ==> StatusOf(Normalize(p)) == StatusOf(p)
  {
  }

  // ------------------------------------------------------------ runtime args

  function IndexOf(args: seq<string>, flag: string): (i: nat)
    ensures i <= |args| && (i < |args| ==> args[i] == flag)
    ensures forall k :: 0 <= k < i ==> args[k] != flag
  {
    if args == [] || args[0] == flag then 0 else 1 + IndexOf(args[1..], flag)
  }

  /** The value that follows the first occurrence of the flag. */
  function ArgOf(args: seq<string>, flag: string): Option<string> {
    var i := IndexOf(args, flag);
    if i + 1 < |args| then Some(args[i + 1]) else None
  }

  function Replaced(args: seq<string>, flag: string, value: int): seq<string>
    requires ArgOf(args, flag).Some?
  {
    args[IndexOf(args, flag) + 1 := Decimal(value)]
  }

  /** The list _replace_runtime_arg edits in place. */
  class ArgList {
    var args: seq<string>

    constructor (args: seq<string>)
      ensures this.args == args
    {
      this.args := args;
    }

    /** _replace_runtime_arg */
    method Replace(flag: string, value: int) returns (ok: bool)
      modifies this
      ensures ok <==> ArgOf(old(args), flag).Some?
      ensures args == if ok then Replaced(old(args), flag, value) else old(args)
    {
      var i := 0;
      while i < |args| && args[i] != flag
        invariant 0 <= i <= |args| && args == old(args)
        invariant forall k :: 0 <= k < i ==> args[k] != flag
      {
        i := i + 1;
      }
      FoundAt(args, flag, i);
      if i >= |args| || i + 1 >= |args| {
        return false;
      }
      args := args[i + 1 := Decimal(value)];
      ok := true;
    }
  }

  lemma {:induction false} FoundAt(args: seq<string>, flag: string, i: nat)
    requires i <= |args| && (i < |args| ==> args[i] == flag)
    requires forall k :: 0 <= k < i ==> args[k] != flag
    ensures IndexOf(args, flag) == i
  {
  }

  predicate IsFlag(s: string) {
    |s| >= 2 && s[0] == '-' && s[1] == '-'
  }

  lemma NumberIsNoFlag(n: nat)
    ensures !IsFlag(Decimal(n))
  {
  }

  /** Replacing one flag's value leaves the value of another, as long as what is
      overwritten is not itself that other flag. */
  lemma ReplaceOther(args: seq<string>, flag: string, other: string, value: nat)
    requires ArgOf(args, flag).Some? && ArgOf(args, other).Some? && flag != other
    requires IsFlag(other) && ArgOf(args, flag).value != other
    ensures ArgOf(Replaced(args, flag, value), other) == ArgOf(args, other)
  {
    var after := Replaced(args, flag, value);
    NumberIsNoFlag(value);
    var i := IndexOf(args, other);
    assert forall k :: 0 <= k < i ==> after[k] != other;
    FoundAt(after, other, i);
  }

  lemma ReplaceSame(args: seq<string>, flag: string, value: nat)
    requires ArgOf(args, flag).Some? && IsFlag(flag)
    ensures ArgOf(Replaced(args, flag, value), flag) == Some(Decimal(value))
  {
    var after := Replaced(args, flag, value);
    NumberIsNoFlag(value);
    FoundAt(after, flag, IndexOf(args, flag));
  }

  datatype Runtime = LlamaCpp | Vllm | Unmanaged

  function SlotFlag(r: Runtime): string {
    if r == LlamaCpp then "--parallel" else "--max-num-seqs"
  }

  function ContextFlag(r: Runtime): string {
    if r == LlamaCpp then "--ctx-size" else "--max-num-batched-tokens"
  }

  /** The arguments the server runs with are the profile's numbers. */
  predicate ArgsMatch(r: Runtime, args: seq<string>, context: int, slots: int) {
    ArgOf(args, SlotFlag(r)) == Some(Decimal(slots)) && ArgOf(args, ContextFlag(r)) == Some(Decimal(context * slots))
  }

  // ----------------------------------------------------------------- staging

  /** The target of runtime.json; the other members are carried along. */
  datatype Target = Target(runtime: Runtime, generationId: string, profile: Profile, rest: Profile)
  datatype Generation = Generation(target: Target, args: seq<string>)

  function OriginalOf(t: Target): string {
    var v := Get(Normalize(t.profile), OriginalGeneration);
    if Truthy(v) then Shown(v) else t.generationId
  }

  /** The profile a calibration generation is staged with. */
  function StagedProfile(t: Target, context: int, c: int, status: string, runId: string, now: string): Profile {
    Contexts(Normalize(t.profile)[Serving := IntV(c)][Concurrency := IntV(c)][Parallel := IntV(c)][MaxSeqs := IntV(c)],
             context, c)
      [CalibrationStatus := AsText(status)][RunId := AsText(runId)]
      [SourceGeneration := AsText(t.generationId)][OriginalGeneration := AsText(OriginalOf(t))]
      [UpdatedAt := AsText(now)]
  }

  /** int(value or 0) where that is positive: unlike normalization, staging takes
      True for 1. */
  function ContextNumber(v: Value): (n: Option<int>)
    ensures n.Some? ==> n.value >= 1
  {
    if v.BoolV? then (if v.b then Some(1) else None) else PositiveInt(v)
  }

  function ContextOf(t: Target): Option<int> {
    ContextNumber(Get(Normalize(t.profile), ContextLength))
  }

  /** What staging asks of the active generation and of the request. */
  predicate Stageable(g: Generation, c: int, status: string, runId: string) {
    && status in {"running", "calibrated"} && c >= 1 && runId != ""
    && g.target.runtime != Unmanaged && g.target.generationId != ""
    && c <= CeilingOf(g.target.profile)
    && ContextOf(g.target).Some?
    && ArgOf(g.args, SlotFlag(g.target.runtime)).Some?
    && ArgOf(StagedArgs1(g, c), ContextFlag(g.target.runtime)).Some?
  }

  function StagedArgs1(g: Generation, c: int): seq<string> {
    if ArgOf(g.args, SlotFlag(g.target.runtime)).Some? then Replaced(g.args, SlotFlag(g.target.runtime), c) else g.args
  }

  function Staged(g: Generation, c: int, status: string, runId: string, now: string, id: string): Generation
    requires Stageable(g, c, status, runId)
  {
    var context := ContextOf(g.target).value;
    Generation(
      g.target.(generationId := id, profile := StagedProfile(g.target, context, c, status, runId, now)),
      Replaced(StagedArgs1(g, c), ContextFlag(g.target.runtime), context * c))
  }

  /** The config directory of one scope: staged generations and the active one. */
  class ConfigStore {
    var generations: map<string, Generation>
    var active: Option<Target>

    constructor (id: string, first: Generation)
      ensures generations == map[id := first] && active == Some(first.target)
    {
      generations, active := map[id := first], Some(first.target);
    }

    /** stage_calibration_runtime_generation; id and now come from the clock. */
    method StageCalibration(c: int, status: string, runId: string, now: string, id: string) returns (ok: bool)
      modifies this`generations
      ensures ok <==>
        active.Some? && active.value.generationId in old(generations) && id !in old(generations)
        && Stageable(Generation(active.value, old(generations)[active.value.generationId].args), c, status, runId)
      ensures generations ==
        if ok then old(generations)[id :=
          Staged(Generation(active.value, old(generations)[active.value.generationId].args), c, status, runId, now, id)]
        else old(generations)
    {
      hide Decimal, Normalize, IndexOf, ArgOf, Replaced, Consistent;
      if status !in {"running", "calibrated"} || c < 1 || active.None? || runId == "" {
        return false;
      }
      var target := active.value;
      if target.runtime == Unmanaged || target.generationId == "" {
        return false;
      }
      var serving := NormalizeServingProfile(target.profile);
      NormalizeIsConsistent(target.profile);
      if c > serving[SafeCeiling].i {
        return false;
      }
      var context := ContextNumber(Get(serving, ContextLength));
      if context.None? || target.generationId !in generations {
        return false;
      }
      var list := new ArgList(generations[target.generationId].args);
      var replaced := list.Replace(SlotFlag(target.runtime), c);
      if !replaced {
        return false;
      }
      replaced := list.Replace(ContextFlag(target.runtime), context.value * c);
      if !replaced || id in generations {
        return false;
      }
      var original := if Truthy(Get(serving, OriginalGeneration))
        then Shown(Get(serving, OriginalGeneration)) else target.generationId;
      var profile := serving[Serving := IntV(c)][Concurrency := IntV(c)][Parallel := IntV(c)][MaxSeqs := IntV(c)];
      profile := profile[ServerCtx := IntV(context.value * c)][MaxBatched := IntV(context.value * c)];
      profile := profile[CalibrationStatus := AsText(status)][RunId := AsText(runId)];
      profile := profile[SourceGeneration := AsText(target.generationId)][OriginalGeneration := AsText(original)]
        [UpdatedAt := AsText(now)];
      generations := generations[id := Generation(target.(generationId := id, profile := profile), list.args)];
      ok := true;
    }

    /** commit_active_runtime_config: one atomic replacement of the pointer. */
    method Commit(id: string) returns (ok: bool)
      modifies this`active
      ensures ok <==> id in generations
      ensures active == if ok then Some(generations[id].target) else old(active)
    {
      if id !in generations {
        return false;
      }
      active := Some(generations[id].target);
      ok := true;
    }
  }

  /** A managed generation whose profile and arguments say the same. */
  predicate GenerationOk(g: Generation) {
    && g.target.runtime != Unmanaged && g.target.generationId != ""
    && Consistent(g.target.profile)
    && ContextOf(g.target).Some?
    && ArgsMatch(g.target.runtime, g.args, ContextOf(g.target).value, g.target.profile[Serving].i)
  }

  function SlotsOf(g: Generation): int
    requires GenerationOk(g)
  {
    g.target.profile[Serving].i
  }

  /** MAIN RESULT. Staging keeps profile and arguments in step, the ceiling, the
      context length and the generation the calibration began with. */
  lemma StagingKeeps(g: Generation, c: int, status: string, runId: string, now: string, id: string)
    requires GenerationOk(g) && Stageable(g, c, status, runId) && id != ""
    ensures
      var s := Staged(g, c, status, runId, now, id);
      && GenerationOk(s) && s.target.profile[Serving].i == c
      && CeilingOf(s.target.profile) == CeilingOf(g.target.profile)
      && ContextOf(s.target) == ContextOf(g.target)
      && OriginalOf(s.target) == OriginalOf(g.target)
      && s.target.runtime == g.target.runtime && s.target.rest == g.target.rest
  {
    StagedArgsMatch(g, c, status, runId, now, id);
    StagedProfileKeeps(g.target, c, status, runId, now, id);
    hide Staged, StagedProfile, StagedArgs1, Normalize, Decimal, Replaced;
  }

  lemma StagedProfileKeeps(t: Target, c: int, status: string, runId: string, now: string, id: string)
    requires t.generationId != "" && 1 <= c <= CeilingOf(t.profile) && ContextOf(t).Some?
    ensures
      var q := StagedProfile(t, ContextOf(t).value, c, status, runId, now);
      var s := t.(generationId := id, profile := q);
      && Consistent(q) && q[Serving].i == c && CeilingOf(q) == CeilingOf(t.profile)
      && ContextOf(s) == ContextOf(t) && OriginalOf(s) == OriginalOf(t)
  {
    NormalizeIsConsistent(t.profile);
    NormalizedCeiling(t.profile);
    var q := StagedProfile(t, ContextOf(t).value, c, status, runId, now);
    hide Normalize, CeilingOf;
    StagedFields(t, ContextOf(t).value, c, status, runId, now);
    hide StagedProfile;
    CeilingIs(q, CeilingOf(t.profile));
    NormalizeIsConsistent(q);
  }

  lemma CeilingIs(p: Profile, n: int)
    requires Get(p, SafeCeiling) == IntV(n) && n >= 1
    ensures CeilingOf(p) == n
  {
  }

  lemma NormalizedCeiling(p: Profile)
    ensures Get(Normalize(p), SafeCeiling) == IntV(CeilingOf(p))
  {
  }

  /** The fields staging sets, and those it carries over. */
  lemma StagedFields(t: Target, context: int, c: int, status: string, runId: string, now: string)
    ensures
      var q := StagedProfile(t, context, c, status, runId, now);
      && Get(q, Serving) == IntV(c) && Get(q, Concurrency) == IntV(c) && Get(q, Parallel) == IntV(c)
      && Get(q, MaxSeqs) == IntV(c)
      && Get(q, ServerCtx) == IntV(context * c) && Get(q, MaxBatched) == IntV(context * c)
      && Get(q, OriginalGeneration) == AsText(OriginalOf(t))
      && Get(q, SafeCeiling) == Get(Normalize(t.profile), SafeCeiling)
      && Get(q, ContextLength) == Get(Normalize(t.profile), ContextLength)
      && Serving in q && SafeCeiling in Normalize(t.profile) && SafeCeiling in q
  {
    NormalizeIsConsistent(t.profile);
    hide Normalize, OriginalOf;
  }

  lemma FlagsDiffer(r: Runtime)
    ensures IsFlag(SlotFlag(r)) && IsFlag(ContextFlag(r)) && SlotFlag(r) != ContextFlag(r)
  {
  }

  /** Setting two different flags, whose values are no flags, sets both. */
  lemma BothSet(args: seq<string>, slot: string, ctx: string, c: nat, n: nat)
    requires IsFlag(slot) && IsFlag(ctx) && slot != ctx
    requires ArgOf(args, slot).Some? && !IsFlag(ArgOf(args, slot).value)
    requires ArgOf(args, ctx).Some? && !IsFlag(ArgOf(args, ctx).value)
    ensures
      var first := Replaced(args, slot, c);
      && ArgOf(first, ctx).Some?
      && ArgOf(Replaced(first, ctx, n), slot) == Some(Decimal(c))
      && ArgOf(Replaced(first, ctx, n), ctx) == Some(Decimal(n))
  {
    hide ArgOf, Replaced, IsFlag, Decimal;
    var first := Replaced(args, slot, c);
    ReplaceSame(args, slot, c);
    ReplaceOther(args, slot, ctx, c);
    NumberIsNoFlag(c);
    ReplaceOther(first, ctx, slot, n);
    ReplaceSame(first, ctx, n);
  }

  lemma StagedArgsMatch(g: Generation, c: int, status: string, runId: string, now: string, id: string)
    requires GenerationOk(g) && Stageable(g, c, status, runId)
    ensures
      var s := Staged(g, c, status, runId, now, id);
      ArgsMatch(g.target.runtime, s.args, ContextOf(g.target).value, c)
  {
    hide Normalize, Decimal, StagedProfile, ArgOf, Replaced, IsFlag, SlotFlag, ContextFlag, PositiveInt, CeilingOf;
    var context := ContextOf(g.target).value;
    var serving := g.target.profile[Serving].i;
    NumberIsNoFlag(context * serving);
    NumberIsNoFlag(serving);
    FlagsDiffer(g.target.runtime);
    BothSet(g.args, SlotFlag(g.target.runtime), ContextFlag(g.target.runtime), c, context * c);
  }

  /** Each generation was staged from the one before. */
  ghost predicate StagingChain(chain: seq<Generation>) {
    && chain != []
    && forall k :: 0 < k < |chain| ==> StagedFrom(chain[k - 1], chain[k])
  }

  ghost predicate StagedFrom(g: Generation, s: Generation) {
    exists c, status, runId, now, id ::
      Stageable(g, c, status, runId) && id != "" && s == Staged(g, c, status, runId, now, id)
  }

  /** MAIN RESULT. However many calibrations follow one another, the planner's
      ceiling and the first generation stay known, profile and arguments agree,
      and no generation serves more than the ceiling. */
  lemma {:induction false} ChainKeepsCeiling(chain: seq<Generation>, k: nat)
    requires StagingChain(chain) && GenerationOk(chain[0]) && k < |chain|
    ensures GenerationOk(chain[k])
    ensures CeilingOf(chain[k].target.profile) == CeilingOf(chain[0].target.profile)
    ensures OriginalOf(chain[k].target) == OriginalOf(chain[0].target)
    ensures ContextOf(chain[k].target) == ContextOf(chain[0].target)
    ensures 1 <= SlotsOf(chain[k]) <= CeilingOf(chain[0].target.profile)
  {
    hide CeilingOf, OriginalOf, ContextOf, ArgsMatch, Stageable, Staged;
    if k > 0 {
      ChainKeepsCeiling(chain, k - 1);
      var g := chain[k - 1];
      assert StagedFrom(g, chain[k]);
      var c, status, runId, now, id :|
        Stageable(g, c, status, runId) && id != "" && chain[k] == Staged(g, c, status, runId, now, id);
      StagingKeeps(g, c, status, runId, now, id);
    }
    CeilingAgrees(chain[k].target.profile);
  }

  lemma CeilingAgrees(p: Profile)
    requires Consistent(p)
    ensures CeilingOf(p) == p[SafeCeiling].i
  {
  }

  /** MAIN RESULT. A generation staged, however late, from a profile that carries
      the planner's concurrency as its ceiling runs with slots the planner's
      hardware has room for in the planned KV placement; on GPU offload, with the
      planned layers kept, it needs no more of any pool than the planned maximum. */
  lemma StagedStaysWithinPlan(
    chain: seq<Generation>, k: nat,
    e: Memory.Entry, p: Memory.Profile, b: Llamacpp.Backend, level: Memory.Status, place: nat, planned: int)
    requires StagingChain(chain) && GenerationOk(chain[0]) && k < |chain|
    requires Memory.EntryOk(e) && Llamacpp.FirstBest(e, p, b, level, place, planned)
    requires CeilingOf(chain[0].target.profile) == planned
    ensures GenerationOk(chain[k])
      && Llamacpp.Reaches(e, p, b, level, Llamacpp.KvPlaces(p, b)[place], SlotsOf(chain[k]))
      && (b == Llamacpp.GpuOffload ==>
            Llamacpp.AsksNoMore(e, p, Llamacpp.KvPlaces(p, b)[place], SlotsOf(chain[k]), planned))
  {
    hide CeilingOf, GenerationOk, SlotsOf, Llamacpp.FirstBest, Llamacpp.Reaches, Llamacpp.KvPlaces,
         Llamacpp.PlacementAt, Llamacpp.AsksNoMore, Memory.EntryOk, Memory.PlaceLayers;
    ChainKeepsCeiling(chain, k);
    Llamacpp.SafeCeiling(e, p, b, level, place, planned, SlotsOf(chain[k]));
  }
}
