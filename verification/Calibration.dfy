/** app/llm_installation/calibration.py, select_serving_concurrency: how far the
    measured steps justify raising the concurrency. */
module Calibration {
  import opened Wrappers

  const MaxTtftRatio := 1.35
  const MaxTotalRatio := 1.40
  const MinGain := 0.08

  /** A step summary; each measure is Some if it is a positive number. */
  datatype Step = Step(
    concurrency: int, failed: bool, complete: bool,
    throughput: Option<real>, ttft: Option<real>, total: Option<real>, tpot: Option<real>)

  predicate Positive(x: Option<real>) {
    x.Some? ==> x.value > 0.0
  }

  predicate StepWellFormed(s: Step) {
    Positive(s.throughput) && Positive(s.ttft) && Positive(s.total) && Positive(s.tpot)
  }

  datatype Reason =
    | RequestFailures | IncompleteTokens | IncompleteLatency | IncompleteTpot
    | TtftExceeded | TotalExceeded | GainTooSmall

  datatype Decision = Decision(concurrency: int, accepted: bool, reasons: seq<Reason>)

  // ----------------------------------------------------------------- sorting

  function Insert(x: Step, s: seq<Step>): (r: seq<Step>)
    ensures multiset(r) == multiset(s) + multiset{x}
  {
    if s == [] || x.concurrency <= s[0].concurrency then [x] + s
    else
      assert s == [s[0]] + s[1..];
      [s[0]] + Insert(x, s[1..])
  }

  /** sorted(steps, key=concurrency) */
  function Sorted(s: seq<Step>): (r: seq<Step>)
    ensures multiset(r) == multiset(s)
  {
    if s == [] then [] else
      assert s == [s[0]] + s[1..];
      Insert(s[0], Sorted(s[1..]))
  }

  ghost predicate Ascending(s: seq<Step>) {
    forall i, j :: 0 <= i < j < |s| ==> s[i].concurrency <= s[j].concurrency
  }

  lemma {:induction false} InsertAscending(x: Step, s: seq<Step>)
    requires Ascending(s)
    ensures Ascending(Insert(x, s))
  {
    if s != [] && x.concurrency > s[0].concurrency {
      InsertAscending(x, s[1..]);
      var rest := Insert(x, s[1..]);
      forall j | 0 <= j < |rest| ensures s[0].concurrency <= rest[j].concurrency {
        assert rest[j] in multiset(rest);
        if rest[j] != x {
          var i :| 0 <= i < |s[1..]| && s[1..][i] == rest[j];
          assert s[i + 1] == rest[j];
        }
      }
      assert Insert(x, s) == [s[0]] + rest;
    }
  }

  lemma {:induction false} SortedAscending(s: seq<Step>)
    ensures Ascending(Sorted(s))
  {
    if s != [] {
      SortedAscending(s[1..]);
      InsertAscending(s[0], Sorted(s[1..]));
    }
  }

  /** No concurrency was measured twice. */
  ghost predicate AllDiffer(s: seq<Step>) {
    forall i, j :: 0 <= i < j < |s| ==> s[i].concurrency != s[j].concurrency
  }

  lemma {:induction false} InsertDiffers(x: Step, s: seq<Step>)
    requires AllDiffer(s) && forall y :: y in s ==> y.concurrency != x.concurrency
    ensures AllDiffer(Insert(x, s))
  {
    if s != [] && x.concurrency > s[0].concurrency {
      InsertDiffers(x, s[1..]);
      var rest := Insert(x, s[1..]);
      forall y | y in rest ensures y.concurrency != s[0].concurrency {
        assert y in multiset(rest);
      }
    }
  }

  lemma {:induction false} SortedDiffers(s: seq<Step>)
    requires AllDiffer(s)
    ensures AllDiffer(Sorted(s))
  {
    if s != [] {
      SortedDiffers(s[1..]);
      forall y | y in Sorted(s[1..]) ensures y.concurrency != s[0].concurrency {
        assert y in multiset(Sorted(s[1..]));
      }
      InsertDiffers(s[0], Sorted(s[1..]));
    }
  }

  // --------------------------------------------------------------- one step

  predicate Measured(s: Step) {
    !s.failed && s.complete && s.throughput.Some? && s.ttft.Some? && s.total.Some? && s.tpot.Some?
  }

  predicate WithinRatio(x: Option<real>, base: Option<real>, ratio: real)
    requires Positive(base)
  {
    x.Some? && base.Some? ==> x.value / base.value <= ratio
  }

  /** The step is good enough after `previous`, measured against the baseline. */
  predicate Acceptable(s: Step, baseline: Step, previous: Option<real>)
    requires StepWellFormed(baseline) && Positive(previous)
  {
    && Measured(s)
    && (s.concurrency > 1 ==>
          && WithinRatio(s.ttft, baseline.ttft, MaxTtftRatio) && WithinRatio(s.total, baseline.total, MaxTotalRatio)
          && (previous.Some? ==> s.throughput.value / previous.value - 1.0 >= MinGain))
  }

  ghost predicate AllWellFormed(steps: seq<Step>) {
    forall k :: 0 <= k < |steps| ==> StepWellFormed(steps[k])
  }

  ghost function PreviousOf(steps: seq<Step>, k: nat): (p: Option<real>)
    requires k <= |steps| && AllWellFormed(steps)
    ensures Positive(p)
  {
    if k == 0 then None else assert StepWellFormed(steps[k - 1]); steps[k - 1].throughput
  }

  /** The first n sorted steps are accepted, and the next one, if any, is not. */
  ghost predicate AcceptedPrefix(steps: seq<Step>, n: nat) {
    && 0 < |steps| && n <= |steps| && AllWellFormed(steps)
    && (forall k :: 0 <= k < n ==> Acceptable(steps[k], steps[0], PreviousOf(steps, k)))
    && (n < |steps| ==> !Acceptable(steps[n], steps[0], PreviousOf(steps, n)))
  }

  ghost predicate Decided(steps: seq<Step>, n: nat, decisions: seq<Decision>) {
    && n <= |steps| && |decisions| == (if n < |steps| then n + 1 else n)
    && forall k :: 0 <= k < |decisions| ==>
         decisions[k].concurrency == steps[k].concurrency && (decisions[k].accepted <==> k < n)
         && (decisions[k].accepted <==> decisions[k].reasons == [])
  }

  /** The loop body's findings about one step. */
  method Judge(step: Step, baseline: Step, previous: Option<real>) returns (reasons: seq<Reason>)
    requires StepWellFormed(baseline) && Positive(previous)
    ensures reasons == [] <==> Acceptable(step, baseline, previous)
    ensures TtftExceeded in reasons <==> step.concurrency > 1 && !WithinRatio(step.ttft, baseline.ttft, MaxTtftRatio)
  {
    reasons := [];
    if step.failed {
      reasons := reasons + [RequestFailures];
    }
    if !step.complete || step.throughput.None? {
      reasons := reasons + [IncompleteTokens];
    }
    if step.ttft.None? || step.total.None? {
      reasons := reasons + [IncompleteLatency];
    }
    if step.tpot.None? {
      reasons := reasons + [IncompleteTpot];
    }
    if step.concurrency > 1 && baseline.ttft.Some? && step.ttft.Some? {
      if step.ttft.value / baseline.ttft.value > MaxTtftRatio {
        reasons := reasons + [TtftExceeded];
      }
    }
    if step.concurrency > 1 && baseline.total.Some? && step.total.Some? {
      if step.total.value / baseline.total.value > MaxTotalRatio {
        reasons := reasons + [TotalExceeded];
      }
    }
    if step.concurrency > 1 && previous.Some? && step.throughput.Some? {
      var gain := step.throughput.value / previous.value - 1.0;
      if gain < MinGain {
        reasons := reasons + [GainTooSmall];
      }
    }
  }

  /** The first i steps are accepted, and so decided. */
  ghost predicate SoFar(steps: seq<Step>, i: nat, decisions: seq<Decision>)
    requires AllWellFormed(steps) && steps != [] && i <= |steps| && StepWellFormed(steps[0])
  {
    && |decisions| == i
    && (forall k :: 0 <= k < i ==> Acceptable(steps[k], steps[0], PreviousOf(steps, k)))
    && forall k :: 0 <= k < i ==> decisions[k] == Decision(steps[k].concurrency, true, [])
  }

  lemma SoFarGrows(steps: seq<Step>, i: nat, decisions: seq<Decision>)
    requires AllWellFormed(steps) && i < |steps| && StepWellFormed(steps[0]) && SoFar(steps, i, decisions)
    requires Acceptable(steps[i], steps[0], PreviousOf(steps, i))
    ensures SoFar(steps, i + 1, decisions + [Decision(steps[i].concurrency, true, [])])
  {
    hide Acceptable, StepWellFormed;
  }

  lemma Rejected(steps: seq<Step>, i: nat, decisions: seq<Decision>, reasons: seq<Reason>)
    requires AllWellFormed(steps) && i < |steps| && StepWellFormed(steps[0]) && SoFar(steps, i, decisions)
    requires !Acceptable(steps[i], steps[0], PreviousOf(steps, i)) && reasons != []
    ensures AcceptedPrefix(steps, i) && Decided(steps, i, decisions + [Decision(steps[i].concurrency, false, reasons)])
  {
  }

  lemma AllAccepted(steps: seq<Step>, decisions: seq<Decision>)
    requires AllWellFormed(steps) && steps != [] && StepWellFormed(steps[0]) && SoFar(steps, |steps|, decisions)
    ensures AcceptedPrefix(steps, |steps|) && Decided(steps, |steps|, decisions)
  {
  }

  /** The loop over the sorted steps. */
  method Walk(steps: seq<Step>) returns (selected: int, decisions: seq<Decision>)
    requires steps != [] && AllWellFormed(steps)
    ensures Selected(steps, selected, decisions)
  {
    assert StepWellFormed(steps[0]);
    hide Acceptable, AcceptedPrefix, Decided, Selected, StepWellFormed, Positive, WithinRatio;
    selected, decisions := 1, [];
    var previous: Option<real> := None;
    assert SoFar(steps, 0, []);
    hide SoFar;
    var i := 0;
    while i < |steps|
      invariant 0 <= i <= |steps| && previous == PreviousOf(steps, i)
      invariant selected == if i == 0 then 1 else steps[i - 1].concurrency
      invariant SoFar(steps, i, decisions)
    {
      var reasons := Judge(steps[i], steps[0], previous);
      if reasons != [] {
        Rejected(steps, i, decisions, reasons);
        decisions := decisions + [Decision(steps[i].concurrency, false, reasons)];
        Selects(steps, i, selected, decisions);
        return;
      }
      SoFarGrows(steps, i, decisions);
      decisions := decisions + [Decision(steps[i].concurrency, true, [])];
      selected := steps[i].concurrency;
      previous := steps[i].throughput;
      i := i + 1;
    }
    AllAccepted(steps, decisions);
    Selects(steps, i, selected, decisions);
  }

  lemma Selects(steps: seq<Step>, n: nat, selected: int, decisions: seq<Decision>)
    requires AcceptedPrefix(steps, n) && Decided(steps, n, decisions)
    requires selected == if n == 0 then 1 else steps[n - 1].concurrency
    ensures Selected(steps, selected, decisions)
  {
  }

  lemma SortedHasAll(s: seq<Step>)
    requires forall x :: x in s ==> StepWellFormed(x)
    ensures |Sorted(s)| == |s| && AllWellFormed(Sorted(s))
  {
    assert |multiset(Sorted(s))| == |Sorted(s)| && |multiset(s)| == |s|;
    forall k | 0 <= k < |s| ensures StepWellFormed(Sorted(s)[k]) {
      assert Sorted(s)[k] in multiset(s);
    }
  }

  /** The last accepted step is selected, or 1 if not even the baseline is. */
  ghost predicate Selected(steps: seq<Step>, selected: int, decisions: seq<Decision>) {
    exists n: nat :: AcceptedPrefix(steps, n) && Decided(steps, n, decisions)
      && selected == if n == 0 then 1 else steps[n - 1].concurrency
  }

  /** select_serving_concurrency */
  method SelectServingConcurrency(summaries: seq<Step>) returns (result: Result<(int, seq<Decision>), string>)
    requires forall s :: s in summaries ==> StepWellFormed(s)
    ensures result.Ok? <==> summaries != [] && Sorted(summaries) != [] && Sorted(summaries)[0].concurrency == 1
    ensures result.Ok? ==> Selected(Sorted(summaries), result.value.0, result.value.1)
    ensures result.Ok? && AllDiffer(summaries) ==> Justified(Sorted(summaries), result.value.0)
  {
    hide Sorted, Selected, Justified, AllDiffer;
    if summaries == [] {
      return Err("at least one calibration step is required");
    }
    var steps := Sorted(summaries);
    SortedHasAll(summaries);
    if steps[0].concurrency != 1 {
      return Err("calibration must include concurrency=1 as the baseline");
    }
    var selected, decisions := Walk(steps);
    if AllDiffer(summaries) {
      SortedAscending(summaries);
      SortedDiffers(summaries);
      SelectedIsJustified(steps, selected, decisions);
    }
    result := Ok((selected, decisions));
  }

  // ------------------------------------------------------------ what it means

  function Pow(x: real, n: nat): real {
    if n == 0 then 1.0 else x * Pow(x, n - 1)
  }

  lemma Distinct(steps: seq<Step>, k: nat)
    requires Ascending(steps) && 0 < k < |steps| && steps[0].concurrency == 1
    requires AllDiffer(steps)
    ensures steps[k].concurrency > 1
  {
  }

  /** MAIN RESULT. With distinct concurrencies from 1 up, the accepted throughputs
      grow by at least 8 % a step, so the n-th is at least 1.08^(n-1) times the
      baseline, and every accepted p95 stays within its ratio of the baseline. */
  lemma {:induction false} AcceptedGrowth(steps: seq<Step>, n: nat, k: nat)
    requires Ascending(steps) && AcceptedPrefix(steps, n) && k < n && steps[0].concurrency == 1
    requires AllDiffer(steps)
    ensures Measured(steps[0]) && Measured(steps[k])
    ensures steps[k].throughput.value >= Target(k, steps[0].throughput.value)
    ensures k > 0 ==> steps[k].ttft.value <= MaxTtftRatio * steps[0].ttft.value
    ensures k > 0 ==> steps[k].total.value <= MaxTotalRatio * steps[0].total.value
  {
    hide AcceptedPrefix, Target, Ascending;
    AcceptedStep(steps, n, k);
    if k == 0 {
      TargetStart(steps[0].throughput);
    } else {
      AcceptedGrowth(steps, n, k - 1);
      Distinct(steps, k);
      Compound(steps[k].throughput.value, steps[k - 1].throughput.value, k - 1, steps[0].throughput.value);
    }
  }

  /** The measurements justify this concurrency: it is the baseline's, or the one
      of the k-th step above it, with every step up to there a gain. */
  ghost predicate Justified(steps: seq<Step>, selected: int) {
    || selected == 1
    || exists k: nat :: 0 < k < |steps| && steps[k].concurrency == selected && GrewTo(steps, k)
  }

  ghost predicate GrewTo(steps: seq<Step>, k: nat)
    requires k < |steps|
  {
    && Measured(steps[0])
    && forall j :: 0 < j <= k ==>
         && Measured(steps[j]) && steps[j].throughput.value >= Target(j, steps[0].throughput.value)
         && steps[j].ttft.value <= MaxTtftRatio * steps[0].ttft.value
         && steps[j].total.value <= MaxTotalRatio * steps[0].total.value
  }

  /** MAIN RESULT. What is selected is justified. */
  lemma SelectedIsJustified(steps: seq<Step>, selected: int, decisions: seq<Decision>)
    requires Ascending(steps) && AllDiffer(steps) && steps != [] && steps[0].concurrency == 1
    requires Selected(steps, selected, decisions)
    ensures Justified(steps, selected)
  {
    var n: nat :| AcceptedPrefix(steps, n) && Decided(steps, n, decisions)
      && selected == if n == 0 then 1 else steps[n - 1].concurrency;
    hide AcceptedPrefix, Decided, Ascending, AllDiffer, Target;
    if n > 1 {
      forall j | 0 <= j <= n - 1
        ensures Measured(steps[0]) && Measured(steps[j])
        ensures steps[j].throughput.value >= Target(j, steps[0].throughput.value)
        ensures j > 0 ==> steps[j].ttft.value <= MaxTtftRatio * steps[0].ttft.value
        ensures j > 0 ==> steps[j].total.value <= MaxTotalRatio * steps[0].total.value
      {
        AcceptedGrowth(steps, n, j);
      }
      assert GrewTo(steps, n - 1);
    }
  }

  /** One accepted step against the baseline and the step before. */
  lemma AcceptedStep(steps: seq<Step>, n: nat, k: nat)
    requires AcceptedPrefix(steps, n) && k < n
    ensures k < |steps| && Measured(steps[0]) && Measured(steps[k])
    ensures k > 0 && steps[k].concurrency > 1 ==>
      && Measured(steps[k - 1]) && steps[k].throughput.value >= 1.08 * steps[k - 1].throughput.value
      && steps[k].ttft.value <= MaxTtftRatio * steps[0].ttft.value
      && steps[k].total.value <= MaxTotalRatio * steps[0].total.value
  {
    hide Acceptable, WithinRatio;
    assert StepWellFormed(steps[0]) && StepWellFormed(steps[k]);
    assert Acceptable(steps[0], steps[0], PreviousOf(steps, 0));
    assert Acceptable(steps[k], steps[0], PreviousOf(steps, k));
    AcceptedFacts(steps[0], steps[0], None);
    AcceptedFacts(steps[k], steps[0], PreviousOf(steps, k));
    if k > 0 {
      assert Acceptable(steps[k - 1], steps[0], PreviousOf(steps, k - 1));
      AcceptedFacts(steps[k - 1], steps[0], PreviousOf(steps, k - 1));
    }
  }

  lemma TargetStart(base: Option<real>)
    ensures base.Some? ==> Target(0, base.value) == base.value
  {
  }

  lemma AcceptedFacts(s: Step, baseline: Step, previous: Option<real>)
    requires StepWellFormed(baseline) && Positive(previous) && Acceptable(s, baseline, previous)
    ensures Measured(s)
    ensures s.concurrency > 1 && baseline.ttft.Some? ==> s.ttft.value <= MaxTtftRatio * baseline.ttft.value
    ensures s.concurrency > 1 && baseline.total.Some? ==> s.total.value <= MaxTotalRatio * baseline.total.value
    ensures s.concurrency > 1 && previous.Some? ==> s.throughput.value >= 1.08 * previous.value
  {
  }

  lemma Compound(now: real, before: real, k: nat, base: real)
    requires now >= 1.08 * before && before >= Target(k, base)
    ensures now >= Target(k + 1, base)
  {
  }

  /** 1.08^k times the baseline */
  function Target(k: nat, base: real): real {
    Pow(1.08, k) * base
  }
}
