/** app/llm_installation/selection.py: ranking by reciprocal rank fusion and the
    choice of a model. */
module Selection {
  import opened Wrappers
  import opened Memory

  /** `id` is the artifact id's place in the string order of all ids; the numbers
      are those the key functions read. */
  datatype Candidate = Candidate(
    id: int, tps: Option<real>, params: real, headroom: Option<real>, precision: int, context: int,
    fit: Status, autoOk: bool, manualOk: bool)

  /** A sort key: a tuple compared from the left. */
  datatype Key = Key(k0: real, k1: real, k2: real, k3: real, k4: real)

  predicate Greater(a: Key, b: Key) {
    a.k0 > b.k0 || (a.k0 == b.k0 && (a.k1 > b.k1 || (a.k1 == b.k1 && (a.k2 > b.k2
      || (a.k2 == b.k2 && (a.k3 > b.k3 || (a.k3 == b.k3 && a.k4 > b.k4)))))))
  }

  predicate DistinctIds(s: seq<Candidate>) {
    forall i, j :: 0 <= i < j < |s| ==> s[i].id != s[j].id
  }

  // --------------------------------------------------------- stable sorting

  /** Puts x, which came before all of s, in front of the first element whose key
      is not greater. */
  function Insert(x: Candidate, s: seq<Candidate>, key: Candidate -> Key): (r: seq<Candidate>)
    ensures multiset(r) == multiset(s) + multiset{x} && |r| == |s| + 1
  {
    if s == [] || !Greater(key(s[0]), key(x)) then [x] + s
    else
      var r := [s[0]] + Insert(x, s[1..], key);
      assert s == [s[0]] + s[1..];
      r
  }

  /** sorted(s, key=key, reverse=True) */
  function SortDown(s: seq<Candidate>, key: Candidate -> Key): (r: seq<Candidate>)
    ensures multiset(r) == multiset(s) && |r| == |s|
  {
    if s == [] then []
    else
      assert s == [s[0]] + s[1..];
      Insert(s[0], SortDown(s[1..], key), key)
  }

  function IdKey(c: Candidate): Key {
    Key(-(c.id as real), 0.0, 0.0, 0.0, 0.0)
  }

  /** sorted(s, key=id) */
  function SortById(s: seq<Candidate>): (r: seq<Candidate>)
    ensures multiset(r) == multiset(s) && |r| == |s|
  {
    SortDown(s, IdKey)
  }

  /** What a stable descending sort of an id-sorted list orders by. */
  predicate Ahead(key: Candidate -> Key, a: Candidate, b: Candidate) {
    Greater(key(a), key(b)) || (key(a) == key(b) && a.id < b.id)
  }

  ghost predicate Ordered(key: Candidate -> Key, s: seq<Candidate>) {
    forall i, j :: 0 <= i < j < |s| ==> Ahead(key, s[i], s[j])
  }

  lemma AheadChain(key: Candidate -> Key, a: Candidate, b: Candidate, c: Candidate)
    requires Ahead(key, a, b) && Ahead(key, b, c)
    ensures Ahead(key, a, c)
  {
  }

  lemma AheadOne(key: Candidate -> Key, a: Candidate, b: Candidate)
    ensures !(Ahead(key, a, b) && Ahead(key, b, a))
    ensures a.id != b.id ==> Ahead(key, a, b) || Ahead(key, b, a)
  {
  }

  lemma {:induction false} InsertOrdered(x: Candidate, s: seq<Candidate>, key: Candidate -> Key)
    requires Ordered(key, s) && forall y :: y in s ==> x.id < y.id
    ensures Ordered(key, Insert(x, s, key))
  {
    if s == [] || !Greater(key(s[0]), key(x)) {
      forall j | 0 <= j < |s| ensures Ahead(key, x, s[j]) {
        assert x.id < s[0].id && Ahead(key, x, s[0]);
        if j > 0 {
          AheadChain(key, x, s[0], s[j]);
        }
      }
      assert Insert(x, s, key) == [x] + s;
    } else {
      var rest := Insert(x, s[1..], key);
      InsertOrdered(x, s[1..], key);
      forall j | 0 <= j < |rest| ensures Ahead(key, s[0], rest[j]) {
        assert rest[j] in multiset(rest);
        if rest[j] != x {
          assert rest[j] in s[1..];
          var i :| 0 <= i < |s[1..]| && s[1..][i] == rest[j];
          assert s[i + 1] == rest[j];
        }
      }
      assert Insert(x, s, key) == [s[0]] + rest;
    }
  }

  /** A stable sort of a list in id order is ordered by key, then id. */
  lemma {:induction false} SortOrdered(s: seq<Candidate>, key: Candidate -> Key)
    requires IdsUp(s)
    ensures Ordered(key, SortDown(s, key))
  {
    if s != [] {
      SortOrdered(s[1..], key);
      forall y | y in SortDown(s[1..], key) ensures s[0].id < y.id {
        assert y in multiset(SortDown(s[1..], key));
        InTail(s, y);
      }
      InsertOrdered(s[0], SortDown(s[1..], key), key);
    }
  }

  ghost predicate IdsUp(s: seq<Candidate>) {
    forall i, j :: 0 <= i < j < |s| ==> s[i].id < s[j].id
  }

  lemma UpCons(x: Candidate, s: seq<Candidate>)
    requires IdsUp(s) && forall y :: y in s ==> x.id < y.id
    ensures IdsUp([x] + s)
  {
  }

  lemma InTail(s: seq<Candidate>, y: Candidate)
    requires s != [] && y in s[1..]
    ensures y in s && (IdsUp(s) ==> s[0].id < y.id) && (DistinctIds(s) ==> s[0].id != y.id)
  {
  }

  lemma {:induction false} InsertById(x: Candidate, s: seq<Candidate>)
    requires IdsUp(s) && forall y :: y in s ==> x.id != y.id
    ensures IdsUp(Insert(x, s, IdKey))
  {
    if s != [] && Greater(IdKey(s[0]), IdKey(x)) {
      var rest := Insert(x, s[1..], IdKey);
      InsertById(x, s[1..]);
      forall y | y in rest ensures s[0].id < y.id {
        assert y in multiset(rest);
        if y != x {
          InTail(s, y);
        }
      }
      UpCons(s[0], rest);
    } else {
      forall y | y in s ensures x.id < y.id {
        if y != s[0] {
          assert y in s[1..];
          InTail(s, y);
        }
      }
      UpCons(x, s);
    }
  }

  lemma {:induction false} ByIdOrdered(s: seq<Candidate>)
    requires DistinctIds(s)
    ensures IdsUp(SortById(s))
  {
    if s != [] {
      ByIdOrdered(s[1..]);
      var r := SortById(s[1..]);
      forall y | y in r ensures s[0].id != y.id {
        assert y in multiset(r);
        InTail(s, y);
      }
      hide IdsUp, DistinctIds, Insert;
      InsertById(s[0], r);
    }
  }

  lemma SameHead(key: Candidate -> Key, s: seq<Candidate>, t: seq<Candidate>)
    requires Ordered(key, s) && Ordered(key, t) && multiset(s) == multiset(t) && s != [] && t != []
    ensures s[0] == t[0]
  {
    assert s[0] in multiset(t) && t[0] in multiset(s);
    var i :| 0 <= i < |t| && t[i] == s[0];
    var j :| 0 <= j < |s| && s[j] == t[0];
    AheadOne(key, s[0], t[0]);
  }

  lemma TailBag(s: seq<Candidate>)
    requires s != []
    ensures multiset(s[1..]) == multiset(s) - multiset{s[0]}
  {
    assert s == [s[0]] + s[1..];
  }

  lemma TailOrdered(key: Candidate -> Key, s: seq<Candidate>)
    requires Ordered(key, s) && s != []
    ensures Ordered(key, s[1..])
  {
  }

  /** The same candidates have one ordered list. */
  lemma {:induction false} OrderedIsUnique(key: Candidate -> Key, s: seq<Candidate>, t: seq<Candidate>)
    requires Ordered(key, s) && Ordered(key, t) && multiset(s) == multiset(t)
    ensures s == t
  {
    hide Ordered;
    SameSize(s, t);
    if s != [] {
      SameHead(key, s, t);
      TailBag(s);
      TailBag(t);
      TailOrdered(key, s);
      TailOrdered(key, t);
      OrderedIsUnique(key, s[1..], t[1..]);
      assert s == [s[0]] + s[1..] && t == [t[0]] + t[1..];
    }
  }

  lemma SameSize(s: seq<Candidate>, t: seq<Candidate>)
    requires multiset(s) == multiset(t)
    ensures |s| == |t|
  {
    assert |multiset(s)| == |s| && |multiset(t)| == |t|;
  }

  // ---------------------------------------------------------------- ranking

  /** None sorts below every known number. */
  function Known(x: Option<real>): (real, real) {
    if x.None? then (0.0, 0.0) else (1.0, x.value)
  }

  function TpsKey(c: Candidate): Key {
    Key(Known(c.tps).0, Known(c.tps).1, 0.0, 0.0, 0.0)
  }

  function ParamsKey(c: Candidate): Key {
    Key(c.params, 0.0, 0.0, 0.0, 0.0)
  }

  function ByTps(s: seq<Candidate>): seq<Candidate> {
    SortDown(SortById(s), TpsKey)
  }

  function ByParams(s: seq<Candidate>): seq<Candidate> {
    SortDown(SortById(s), ParamsKey)
  }

  /** _rank_positions: the index under which a dictionary over the list holds the id. */
  function Position(ordered: seq<Candidate>, id: int): (i: nat)
    ensures i <= |ordered| && (i < |ordered| ==> ordered[i].id == id)
    ensures forall k :: 0 <= k < i ==> ordered[k].id != id
  {
    if ordered == [] || ordered[0].id == id then 0 else 1 + Position(ordered[1..], id)
  }

  /** _rrf_component */
  function Fused(rank: nat): real {
    1.0 / (61 + rank) as real
  }

  function Score(tpsOrder: seq<Candidate>, paramsOrder: seq<Candidate>, c: Candidate): real {
    Fused(Position(tpsOrder, c.id)) + Fused(Position(paramsOrder, c.id))
  }

  function RankKey(tpsOrder: seq<Candidate>, paramsOrder: seq<Candidate>, c: Candidate): Key {
    Key(Score(tpsOrder, paramsOrder, c), Known(c.headroom).0, Known(c.headroom).1, c.precision as real,
      c.context as real)
  }

  function RankKeyOf(tpsOrder: seq<Candidate>, paramsOrder: seq<Candidate>): Candidate -> Key {
    c => RankKey(tpsOrder, paramsOrder, c)
  }

  /** _rank */
  function Rank(s: seq<Candidate>): (r: seq<Candidate>)
    ensures multiset(r) == multiset(s) && |r| == |s|
  {
    if s == [] then []
    else
      var tpsOrder, paramsOrder := ByTps(s), ByParams(s);
      SortDown(SortById(s), RankKeyOf(tpsOrder, paramsOrder))
  }

  lemma TwoPhaseOrdered(s: seq<Candidate>, key: Candidate -> Key)
    requires DistinctIds(s)
    ensures Ordered(key, SortDown(SortById(s), key))
  {
    ByIdOrdered(s);
    SortOrdered(SortById(s), key);
  }

  lemma SamePhases(s: seq<Candidate>, t: seq<Candidate>, key: Candidate -> Key)
    requires DistinctIds(s) && DistinctIds(t) && multiset(s) == multiset(t)
    ensures SortDown(SortById(s), key) == SortDown(SortById(t), key)
  {
    TwoPhaseOrdered(s, key);
    TwoPhaseOrdered(t, key);
    OrderedIsUnique(key, SortDown(SortById(s), key), SortDown(SortById(t), key));
  }

  /** MAIN RESULT. With distinct ids the ranking is a permutation of the
      candidates that does not depend on the order they are given in. */
  lemma RankIgnoresOrder(s: seq<Candidate>, t: seq<Candidate>)
    requires DistinctIds(s) && DistinctIds(t) && multiset(s) == multiset(t)
    ensures Rank(s) == Rank(t) && multiset(Rank(s)) == multiset(s)
  {
    SameSize(s, t);
    if s != [] {
      SamePhases(s, t, TpsKey);
      SamePhases(s, t, ParamsKey);
      var tpsOrder, paramsOrder := ByTps(s), ByParams(s);
      SamePhases(s, t, RankKeyOf(tpsOrder, paramsOrder));
    }
  }

  lemma AheadIsEarlier(key: Candidate -> Key, s: seq<Candidate>, a: Candidate, b: Candidate)
    requires Ordered(key, s) && DistinctIds(s) && a in s && b in s && Ahead(key, a, b)
    ensures Position(s, a.id) < Position(s, b.id)
  {
  }

  lemma FusedDecreases(a: nat, b: nat)
    requires a < b
    ensures Fused(a) > Fused(b)
  {
  }

  /** Strictly faster, by a known estimate, and strictly larger. */
  predicate Dominates(a: Candidate, b: Candidate) {
    a.tps.Some? && (b.tps.None? || a.tps.value > b.tps.value) && a.params > b.params
  }

  lemma SortedHas(s: seq<Candidate>, key: Candidate -> Key, c: Candidate)
    requires DistinctIds(s) && c in s
    ensures c in SortDown(SortById(s), key) && DistinctIds(SortDown(SortById(s), key))
  {
    var r := SortDown(SortById(s), key);
    assert c in multiset(s);
    assert c in multiset(r);
    TwoPhaseOrdered(s, key);
    DistinctByMultiset(s, r);
  }

  lemma DistinctByMultiset(s: seq<Candidate>, r: seq<Candidate>)
    requires DistinctIds(s) && multiset(r) == multiset(s)
    ensures DistinctIds(r)
  {
    forall i, j | 0 <= i < j < |r| ensures r[i].id != r[j].id {
      if r[i].id == r[j].id {
        assert r[i] in multiset(s) && r[j] in multiset(s);
        var m :| 0 <= m < |s| && s[m] == r[i];
        var n :| 0 <= n < |s| && s[n] == r[j];
        assert m == n;
        TwiceIsTwo(r, i, j);
        OnceIsOne(s, m);
      }
    }
  }

  lemma TwiceIsTwo(r: seq<Candidate>, i: nat, j: nat)
    requires i < j < |r| && r[i] == r[j]
    ensures multiset(r)[r[i]] >= 2
  {
    assert r == r[..j] + [r[j]] + r[j + 1..];
    assert r[..j][i] == r[i];
    assert r[i] in multiset(r[..j]);
  }

  lemma OnceIsOne(s: seq<Candidate>, m: nat)
    requires DistinctIds(s) && m < |s|
    ensures multiset(s)[s[m]] == 1
  {
    assert s == s[..m] + [s[m]] + s[m + 1..];
    assert s[m] !in s[..m] && s[m] !in s[m + 1..];
    assert s[m] !in multiset(s[..m]) && s[m] !in multiset(s[m + 1..]);
  }

  /** MAIN RESULT. A candidate strictly faster and strictly larger than another
      ranks above it. */
  lemma DominanceRanks(s: seq<Candidate>, a: Candidate, b: Candidate)
    requires DistinctIds(s) && a in s && b in s && Dominates(a, b)
    ensures a in Rank(s) && b in Rank(s) && Position(Rank(s), a.id) < Position(Rank(s), b.id)
  {
    var tpsKey, paramsKey := TpsKey, ParamsKey;
    var tpsOrder, paramsOrder := ByTps(s), ByParams(s);
    SortedHas(s, tpsKey, a);
    SortedHas(s, tpsKey, b);
    TwoPhaseOrdered(s, tpsKey);
    AheadIsEarlier(tpsKey, tpsOrder, a, b);
    SortedHas(s, paramsKey, a);
    SortedHas(s, paramsKey, b);
    TwoPhaseOrdered(s, paramsKey);
    AheadIsEarlier(paramsKey, paramsOrder, a, b);
    FusedDecreases(Position(tpsOrder, a.id), Position(tpsOrder, b.id));
    FusedDecreases(Position(paramsOrder, a.id), Position(paramsOrder, b.id));
    var key := RankKeyOf(tpsOrder, paramsOrder);
    assert Ahead(key, a, b);
    SortedHas(s, key, a);
    SortedHas(s, key, b);
    TwoPhaseOrdered(s, key);
    AheadIsEarlier(key, Rank(s), a, b);
  }

  /** MAIN RESULT. Nothing ranked dominates the first. */
  lemma FirstIsUndominated(s: seq<Candidate>, other: Candidate)
    requires DistinctIds(s) && s != [] && other in s
    ensures Rank(s)[0] in s && !Dominates(other, Rank(s)[0])
  {
    assert Rank(s)[0] in multiset(s);
    if Dominates(other, Rank(s)[0]) {
      DominanceRanks(s, other, Rank(s)[0]);
    }
  }

  // ---------------------------------------------------------------- choosing

  datatype Mode = Automatic | Manual
  datatype Outcome = Selected | ConfirmationRequired | ManualRequired | InvalidManual | NothingSelectable
  datatype Choice = Choice(outcome: Outcome, selected: Option<Candidate>, ranked: seq<Candidate>)

  lemma {:induction false} ThoseDistinct(s: seq<Candidate>, keep: Candidate -> bool)
    requires DistinctIds(s)
    ensures DistinctIds(Those(s, keep))
  {
    if s != [] {
      ThoseDistinct(s[1..], keep);
      var rest := Those(s[1..], keep);
      forall y | y in rest ensures s[0].id != y.id {
        InTail(s, y);
      }
      assert DistinctIds([s[0]] + rest);
    }
  }

  predicate Eligible(mode: Mode, fit: Status, c: Candidate) {
    (if mode == Automatic then c.autoOk else c.manualOk) && c.fit == fit && fit != NoFit
  }

  predicate Selectable(c: Candidate) {
    c.manualOk && c.fit != NoFit
  }

  predicate NotSelectable(c: Candidate) {
    !Selectable(c)
  }

  function EligibleFor(mode: Mode, fit: Status): Candidate -> bool {
    c => Eligible(mode, fit, c)
  }

  function EligibleWith(s: seq<Candidate>, mode: Mode, fit: Status): (r: seq<Candidate>)
    ensures forall c :: c in r <==> c in s && Eligible(mode, fit, c)
  {
    Those(s, EligibleFor(mode, fit))
  }

  lemma EligibleDistinct(s: seq<Candidate>, mode: Mode, fit: Status)
    requires DistinctIds(s)
    ensures DistinctIds(EligibleWith(s, mode, fit))
  {
    ThoseDistinct(s, EligibleFor(mode, fit));
  }

  /** rank_manual_candidates */
  method RankManual(s: seq<Candidate>) returns (ranked: seq<Candidate>, rest: seq<Candidate>)
    ensures ranked == Rank(EligibleWith(s, Manual, Fit)) + Rank(EligibleWith(s, Manual, Risky))
    ensures rest == Those(s, NotSelectable)
  {
    var fits: seq<Candidate>, riskies: seq<Candidate> := [], [];
    rest := [];
    var i := |s|;
    while i > 0
      invariant 0 <= i <= |s|
      invariant fits == EligibleWith(s[i..], Manual, Fit) && riskies == EligibleWith(s[i..], Manual, Risky)
      invariant rest == Those(s[i..], NotSelectable)
    {
      i := i - 1;
      assert s[i..][1..] == s[i + 1..];
      if s[i].manualOk && s[i].fit == Fit {
        fits := [s[i]] + fits;
      } else if s[i].manualOk && s[i].fit == Risky {
        riskies := [s[i]] + riskies;
      } else {
        rest := [s[i]] + rest;
      }
    }
    assert s[0..] == s;
    ranked := Rank(fits) + Rank(riskies);
  }

  function Find(s: seq<Candidate>, id: int): (found: Option<Candidate>)
    ensures found.Some? ==> found.value in s && found.value.id == id
    ensures found.None? ==> forall c :: c in s ==> c.id != id
  {
    if s == [] then None else if s[0].id == id then Some(s[0]) else Find(s[1..], id)
  }

  /** select_catalog_model; `wanted` is the id asked for in manual mode. */
  function Select(s: seq<Candidate>, mode: Mode, wanted: Option<int>, confirmed: bool): Choice {
    if mode == Manual then
      var ranked := Rank(EligibleWith(s, Manual, Fit)) + Rank(EligibleWith(s, Manual, Risky));
      if wanted.None? then Choice(ManualRequired, None, ranked)
      else
        var found := Find(Those(s, Selectable), wanted.value);
        if found.None? then Choice(InvalidManual, None, ranked)
        else if found.value.fit == Risky && !confirmed then Choice(ConfirmationRequired, None, ranked)
        else Choice(Selected, found, ranked)
    else if EligibleWith(s, Automatic, Fit) != [] then
      var ranked := Rank(EligibleWith(s, Automatic, Fit));
      Choice(Selected, Some(ranked[0]), ranked)
    else
      var ranked := Rank(EligibleWith(s, Automatic, Risky));
      if ranked != [] && !confirmed then Choice(ConfirmationRequired, None, ranked)
      else if ranked != [] then Choice(Selected, Some(ranked[0]), ranked)
      else Choice(NothingSelectable, None, [])
  }

  /** MAIN RESULT. What is chosen automatically is eligible, no candidate of its
      fit status that was eligible is both faster and larger, and a risky one is
      chosen only if it was confirmed and nothing fits. */
  lemma AutomaticChoice(s: seq<Candidate>, wanted: Option<int>, confirmed: bool, other: Candidate)
    requires DistinctIds(s)
    ensures
      var choice := Select(s, Automatic, wanted, confirmed);
      && (choice.outcome == Selected <==> choice.selected.Some?)
      && (choice.selected.Some? ==>
            && choice.selected.value in s && Eligible(Automatic, choice.selected.value.fit, choice.selected.value)
            && (other in s && Eligible(Automatic, choice.selected.value.fit, other) ==>
                 !Dominates(other, choice.selected.value))
            && (choice.selected.value.fit == Risky ==>
                 confirmed && forall c :: c in s ==> !Eligible(Automatic, Fit, c)))
      && (choice.selected.None? && confirmed ==> forall c :: c in s ==> !Eligible(Automatic, c.fit, c))
  {
    hide Rank, Dominates, DistinctIds, EligibleWith;
    var fits, riskies := EligibleWith(s, Automatic, Fit), EligibleWith(s, Automatic, Risky);
    EligibleDistinct(s, Automatic, Fit);
    EligibleDistinct(s, Automatic, Risky);
    var ranked := if fits != [] then fits else riskies;
    if ranked != [] {
      assert Rank(ranked)[0] in multiset(ranked);
      if other in ranked {
        FirstIsUndominated(ranked, other);
      }
    }
    if fits == [] {
      assert forall c :: c in s ==> !Eligible(Automatic, Fit, c) by {
        assert forall c :: c in s && Eligible(Automatic, Fit, c) ==> c in fits;
      }
    }
    if fits == [] && riskies == [] {
      assert forall c :: c in s && Eligible(Automatic, Risky, c) ==> c in riskies;
    }
  }

  /** MAIN RESULT. A manual choice is the candidate asked for, or none: it must
      be selectable, and confirmed if it is risky. */
  lemma ManualChoice(s: seq<Candidate>, wanted: int, confirmed: bool, c: Candidate)
    requires DistinctIds(s)
    ensures Select(s, Manual, Some(wanted), confirmed).selected == Some(c) <==>
      c in s && c.id == wanted && c.manualOk && c.fit != NoFit && (c.fit == Risky ==> confirmed)
  {
    var pool := Those(s, Selectable);
    ThoseDistinct(s, Selectable);
    hide Rank, EligibleWith;
    var found := Find(pool, wanted);
    if found.Some? && c in pool && c.id == wanted {
      var i :| 0 <= i < |pool| && pool[i] == c;
      var j :| 0 <= j < |pool| && pool[j] == found.value;
      assert i == j;
    }
  }

  lemma {:induction false} ThoseCount(s: seq<Candidate>, keep: Candidate -> bool, c: Candidate)
    ensures multiset(Those(s, keep))[c] == if keep(c) then multiset(s)[c] else 0
  {
    if s != [] {
      ThoseCount(s[1..], keep, c);
      assert s == [s[0]] + s[1..];
    }
  }

  lemma ThoseBag(s: seq<Candidate>, t: seq<Candidate>, keep: Candidate -> bool)
    requires multiset(s) == multiset(t)
    ensures multiset(Those(s, keep)) == multiset(Those(t, keep))
  {
    forall c ensures multiset(Those(s, keep))[c] == multiset(Those(t, keep))[c] {
      ThoseCount(s, keep, c);
      ThoseCount(t, keep, c);
    }
  }

  lemma RankedAlike(s: seq<Candidate>, t: seq<Candidate>, mode: Mode, fit: Status)
    requires DistinctIds(s) && DistinctIds(t) && multiset(s) == multiset(t)
    ensures Rank(EligibleWith(s, mode, fit)) == Rank(EligibleWith(t, mode, fit))
    ensures EligibleWith(s, mode, fit) == [] <==> EligibleWith(t, mode, fit) == []
  {
    ThoseBag(s, t, EligibleFor(mode, fit));
    EligibleDistinct(s, mode, fit);
    EligibleDistinct(t, mode, fit);
    RankIgnoresOrder(EligibleWith(s, mode, fit), EligibleWith(t, mode, fit));
    SameSize(EligibleWith(s, mode, fit), EligibleWith(t, mode, fit));
  }

  /** MAIN RESULT. The order in which the catalog lists its models does not
      influence the automatic choice or the ranking shown with it. */
  lemma ChoiceIgnoresOrder(s: seq<Candidate>, t: seq<Candidate>, wanted: Option<int>, confirmed: bool)
    requires DistinctIds(s) && DistinctIds(t) && multiset(s) == multiset(t)
    ensures Select(s, Automatic, wanted, confirmed) == Select(t, Automatic, wanted, confirmed)
  {
    RankedAlike(s, t, Automatic, Fit);
    RankedAlike(s, t, Automatic, Risky);
    hide DistinctIds;
  }
}
