/**
 * The capital allocator of ops/allocator.py: scores, a softmax over the solvent
 * strategies, a clamp to the allowed range and a damped step, over many cycles.
 */
module Allocator {
  import opened Basics
  import opened RealFacts
  import opened Sequences
  import opened Sums

  const MIN_ALLOCATION := 100.0
  const MAX_ALLOCATION := 5000.0
  const DAMPING := 0.10
  const BANKRUPTCY := 0.20
  const DRAWDOWN_LIMIT := 0.15
  const EPSILON := 0.000001

  datatype Strategy = Strategy(id: string, totalLoss: real, pnl: real, winRate: real, maxDrawdown: real)

  datatype Saved = Saved(allocations: map<string, real>, scores: map<string, real>, capital: real)

  datatype Wealth = Wealth(
    capital: real, allocations: map<string, real>, scores: map<string, real>, file: Option<Saved>)

  // ---- one strategy ----

  predicate Solvent(s: Strategy) { s.totalLoss <= BANKRUPTCY }

  /** The only drawdown for which the score divides by zero. */
  predicate Scorable(s: Strategy) { s.maxDrawdown != -EPSILON }

  function Score(s: Strategy): real
    requires Scorable(s)
  {
    if s.maxDrawdown > DRAWDOWN_LIMIT then 0.0 else s.pnl * s.winRate / (s.maxDrawdown + EPSILON)
  }

  predicate AllScorable(ss: seq<Strategy>) { forall i :: 0 <= i < |ss| ==> Scorable(ss[i]) }

  function Scores(ss: seq<Strategy>): (r: seq<real>)
    requires AllScorable(ss)
    ensures |r| == |ss| && forall i :: 0 <= i < |ss| ==> r[i] == Score(ss[i])
  {
    if ss == [] then [] else Scores(ss[..|ss| - 1]) + [Score(ss[|ss| - 1])]
  }

  /** The strategies that take part in a cycle. */
  function Active(ss: seq<Strategy>): seq<Strategy> { Filter(ss, (s: Strategy) => Solvent(s)) }

  // ---- softmax targets ----

  /** All that is used of the exponential. */
  ghost predicate ExpLike(exp: real -> real) {
    (forall x :: exp(x) > 0.0) && forall x, y :: x < y ==> exp(x) < exp(y)
  }

  function MaxOf(xs: seq<real>): (m: real)
    requires xs != []
    ensures forall i :: 0 <= i < |xs| ==> xs[i] <= m
    ensures exists i :: 0 <= i < |xs| && xs[i] == m
  {
    if |xs| == 1 then xs[0] else Max(MaxOf(xs[..|xs| - 1]), xs[|xs| - 1])
  }

  function Weights(scores: seq<real>, exp: real -> real): seq<real>
    requires scores != []
  {
    seq(|scores|, i requires 0 <= i < |scores| => exp(scores[i] - MaxOf(scores)))
  }

  /** A strategy's share of the pool, in dollars, clamped to the allowed range. */
  function Target(weight: real, total: real, capital: real): real
    requires total != 0.0
  {
    Clamp(MIN_ALLOCATION, MAX_ALLOCATION, Portion(weight, total, capital))
  }

  ghost function Targets(scores: seq<real>, exp: real -> real, capital: real): (r: seq<real>)
    requires scores != [] && ExpLike(exp)
    ensures |r| == |scores|
    ensures forall i :: 0 <= i < |r| ==> MIN_ALLOCATION <= r[i] <= MAX_ALLOCATION
  {
    WeightsPositive(scores, exp);
    var total := Total(Weights(scores, exp));
    seq(|scores|, i requires 0 <= i < |scores| => Target(Weights(scores, exp)[i], total, capital))
  }

  lemma {:induction false} TotalPositive(xs: seq<real>)
    requires forall i :: 0 <= i < |xs| ==> xs[i] > 0.0
    ensures Total(xs) >= 0.0 && (xs != [] ==> Total(xs) > 0.0)
  {
    if xs != [] {
      TotalPositive(xs[..|xs| - 1]);
    }
  }

  lemma WeightsPositive(scores: seq<real>, exp: real -> real)
    requires scores != [] && ExpLike(exp)
    ensures forall i :: 0 <= i < |scores| ==> Weights(scores, exp)[i] > 0.0
    ensures Total(Weights(scores, exp)) > 0.0
  {
    TotalPositive(Weights(scores, exp));
  }

  lemma ShareBound(weight: real, total: real, capital: real)
    requires weight >= 0.0 && total > 0.0 && capital >= 0.0
    ensures Target(weight, total, capital) <= Portion(weight, total, capital) + MIN_ALLOCATION
  {
    hide Portion;
    PortionNonNegative(weight, total, capital);
  }

  /** Clamped targets exceed the shares by at most one minimum each. */
  lemma {:induction false} ClampedTotal(weights: seq<real>, targets: seq<real>, total: real, capital: real)
    requires |targets| == |weights| && total > 0.0 && capital >= 0.0
    requires forall i :: 0 <= i < |weights| ==> weights[i] > 0.0 && targets[i] == Target(weights[i], total, capital)
    ensures Total(targets) <= Portion(Total(weights), total, capital) + |weights| as real * MIN_ALLOCATION
  {
    hide Target, Portion;
    if weights != [] {
      var n := |weights| - 1;
      ClampedTotal(weights[..n], targets[..n], total, capital);
      ShareBound(weights[n], total, capital);
      PortionSplit(Total(weights[..n]), weights[n], total, capital);
      NextMultiple(n, MIN_ALLOCATION);
    } else {
      PortionSplit(0.0, 0.0, total, capital);
    }
  }

  /** The targets of a cycle sum to at most the pool plus one minimum per strategy. */
  lemma TargetsWithinPool(scores: seq<real>, exp: real -> real, capital: real)
    requires scores != [] && ExpLike(exp) && capital >= 0.0
    ensures Total(Targets(scores, exp, capital)) <= capital + |scores| as real * MIN_ALLOCATION
  {
    hide Target, Total, ExpLike, Portion;
    WeightsPositive(scores, exp);
    var ws := Weights(scores, exp);
    ClampedTotal(ws, Targets(scores, exp, capital), Total(ws), capital);
    PortionOfAll(Total(ws), capital);
  }

  lemma ShareMonotone(x: real, y: real, total: real, capital: real)
    requires x <= y && total > 0.0 && capital >= 0.0
    ensures Target(x, total, capital) <= Target(y, total, capital)
  {
    hide Portion;
    PortionSplit(x, y - x, total, capital);
    PortionNonNegative(y - x, total, capital);
  }

  /** A higher score never gets a lower target. */
  lemma TargetsRespectScores(scores: seq<real>, exp: real -> real, capital: real, i: nat, j: nat)
    requires scores != [] && ExpLike(exp) && capital >= 0.0
    requires i < |scores| && j < |scores| && scores[i] <= scores[j]
    ensures Targets(scores, exp, capital)[i] <= Targets(scores, exp, capital)[j]
  {
    WeightsPositive(scores, exp);
    var ws := Weights(scores, exp);
    assert ws[i] <= ws[j] by {
      var m := MaxOf(scores);
      assert exp(scores[i] - m) <= exp(scores[j] - m);
    }
    ShareMonotone(ws[i], ws[j], Total(ws), capital);
  }

  // ---- the damped step ----

  function Stepped(current: real, target: real, step: real): real {
    current + Clamp(-step, step, target - current)
  }

  /** How far an allocation is from its target. */
  function Gap(current: real, target: real): real { Abs(target - current) }

  // ---- a cycle ----

  function Zeroed(m: map<string, real>, ss: seq<Strategy>): map<string, real> {
    if ss == [] then m
    else
      var before, s := Zeroed(m, ss[..|ss| - 1]), ss[|ss| - 1];
      if Solvent(s) then before else before[s.id := 0.0]
  }

  /** Values by strategy id; a repeated id keeps its last value. */
  function ById(ss: seq<Strategy>, values: seq<real>): (m: map<string, real>)
    requires |values| == |ss|
    ensures forall i :: 0 <= i < |ss| ==> ss[i].id in m
  {
    if ss == [] then map[] else ById(ss[..|ss| - 1], values[..|ss| - 1])[ss[|ss| - 1].id := values[|ss| - 1]]
  }

  function CurrentOr(m: map<string, real>, id: string, default: real): real {
    if id in m then m[id] else default
  }

  function Damped(m: map<string, real>, targets: map<string, real>, step: real): map<string, real> {
    map id | id in m.Keys + targets.Keys ::
      if id in targets then Stepped(CurrentOr(m, id, targets[id]), targets[id], step) else m[id]
  }

  ghost function TargetMap(ss: seq<Strategy>, exp: real -> real, capital: real): map<string, real>
    requires AllScorable(ss) && ss != [] && ExpLike(exp)
  {
    ById(ss, Targets(Scores(ss), exp, capital))
  }

  predicate Ready(ss: seq<Strategy>) { AllScorable(Active(ss)) }

  ghost function Cycle(w: Wealth, ss: seq<Strategy>, exp: real -> real): Wealth
    requires Ready(ss) && ExpLike(exp)
  {
    var zeroed := w.(allocations := Zeroed(w.allocations, ss), scores := Zeroed(w.scores, ss));
    var active := Active(ss);
    if active == [] then zeroed
    else
      var allocations := Damped(zeroed.allocations, TargetMap(active, exp, w.capital), w.capital * DAMPING);
      var scores := zeroed.scores + ById(active, Scores(active));
      Wealth(w.capital, allocations, scores, Some(Saved(allocations, scores, w.capital)))
  }

  // ---- what a cycle does to one strategy ----

  predicate DistinctIds(ss: seq<Strategy>) {
    forall i, j :: 0 <= i < j < |ss| ==> ss[i].id != ss[j].id
  }

  lemma {:induction false} ActiveIs(ss: seq<Strategy>)
    requires DistinctIds(ss)
    ensures DistinctIds(Active(ss))
    ensures forall a :: a in Active(ss) <==> a in ss && Solvent(a)
  {
    if ss != [] {
      var init, s := ss[..|ss| - 1], ss[|ss| - 1];
      ActiveIs(init);
      assert ss == init + [s];
      assert forall a :: a in Active(init) ==> a.id != s.id;
    }
  }

  lemma {:induction false} ByIdAt(ss: seq<Strategy>, values: seq<real>, i: nat)
    requires DistinctIds(ss) && |values| == |ss| && i < |ss|
    ensures ById(ss, values)[ss[i].id] == values[i]
  {
    var n := |ss| - 1;
    if i < n {
      assert ss[..n][i] == ss[i];
      ByIdAt(ss[..n], values[..n], i);
    }
  }

  lemma {:induction false} ByIdOnly(ss: seq<Strategy>, values: seq<real>, id: string)
    requires |values| == |ss| && forall i :: 0 <= i < |ss| ==> ss[i].id != id
    ensures id !in ById(ss, values)
  {
    if ss != [] {
      ByIdOnly(ss[..|ss| - 1], values[..|ss| - 1], id);
    }
  }

  /** An id without an insolvent strategy keeps its entry; one with gets zero. */
  lemma {:induction false} ZeroedAt(m: map<string, real>, ss: seq<Strategy>, id: string)
    ensures (exists i :: 0 <= i < |ss| && ss[i].id == id && !Solvent(ss[i])) ==>
      id in Zeroed(m, ss) && Zeroed(m, ss)[id] == 0.0
    ensures !(exists i :: 0 <= i < |ss| && ss[i].id == id && !Solvent(ss[i])) ==>
      (id in Zeroed(m, ss) <==> id in m) && (id in m ==> Zeroed(m, ss)[id] == m[id])
  {
    if ss != [] {
      var n := |ss| - 1;
      ZeroedAt(m, ss[..n], id);
      assert forall i :: 0 <= i < n ==> ss[..n][i] == ss[i];
    }
  }

  /** The target of strategy k in a cycle. */
  ghost function TargetOf(w: Wealth, ss: seq<Strategy>, exp: real -> real, k: nat): real
    requires Ready(ss) && ExpLike(exp) && k < |Active(ss)|
  {
    Targets(Scores(Active(ss)), exp, w.capital)[k]
  }

  /** A solvent strategy takes one damped step to its target, from the target if it is new. */
  lemma CycleSteps(w: Wealth, ss: seq<Strategy>, exp: real -> real, k: nat)
    requires Ready(ss) && ExpLike(exp) && DistinctIds(ss) && k < |Active(ss)|
    ensures var id, target := Active(ss)[k].id, TargetOf(w, ss, exp, k);
      id in Cycle(w, ss, exp).allocations
      && Cycle(w, ss, exp).allocations[id]
         == Stepped(CurrentOr(w.allocations, id, target), target, w.capital * DAMPING)
  {
    hide Targets, Stepped, ExpLike, Scores, Zeroed, ById, Score;
    var active := Active(ss);
    ActiveIs(ss);
    ByIdAt(active, Targets(Scores(active), exp, w.capital), k);
    ZeroedAt(w.allocations, ss, active[k].id);
    assert active[k] in ss;
    assert !(exists i :: 0 <= i < |ss| && ss[i].id == active[k].id && !Solvent(ss[i]));
  }

  /** A bankrupt strategy holds nothing; one that is not listed keeps what it had. */
  lemma CycleOthers(w: Wealth, ss: seq<Strategy>, exp: real -> real, id: string)
    requires Ready(ss) && ExpLike(exp) && DistinctIds(ss)
    ensures (exists i :: 0 <= i < |ss| && ss[i].id == id && !Solvent(ss[i])) ==>
      id in Cycle(w, ss, exp).allocations && Cycle(w, ss, exp).allocations[id] == 0.0
    ensures (forall i :: 0 <= i < |ss| ==> ss[i].id != id) ==>
      (id in Cycle(w, ss, exp).allocations <==> id in w.allocations)
      && (id in w.allocations ==> Cycle(w, ss, exp).allocations[id] == w.allocations[id])
  {
    hide Targets, Stepped;
    var active := Active(ss);
    ActiveIs(ss);
    ZeroedAt(w.allocations, ss, id);
    if active != [] && ((forall i :: 0 <= i < |ss| ==> ss[i].id != id)
                        || exists i :: 0 <= i < |ss| && ss[i].id == id && !Solvent(ss[i])) {
      assert forall i :: 0 <= i < |active| ==> active[i] in ss;
      ByIdOnly(active, Targets(Scores(active), exp, w.capital), id);
    }
  }

  /** No solvent strategy moves by more than a tenth of the pool in a cycle. */
  lemma MovesAtMost(w: Wealth, ss: seq<Strategy>, exp: real -> real, k: nat)
    requires Ready(ss) && ExpLike(exp) && DistinctIds(ss) && k < |Active(ss)| && w.capital >= 0.0
    requires Active(ss)[k].id in w.allocations
    ensures var id := Active(ss)[k].id;
      id in Cycle(w, ss, exp).allocations
      && Abs(Cycle(w, ss, exp).allocations[id] - w.allocations[id]) <= DAMPING * w.capital
  {
    hide Cycle, TargetOf;
    CycleSteps(w, ss, exp, k);
  }

  // ---- the same, in numbers ----

  lemma ScoreMeans(s: Strategy)
    requires Scorable(s)
    ensures s.maxDrawdown > 0.15 ==> Score(s) == 0.0
    ensures s.maxDrawdown <= 0.15 ==> Score(s) * (s.maxDrawdown + 0.000001) == s.pnl * s.winRate
  {
  }

  function WeightAt(exp: real -> real, top: real): real -> real { (x: real) => exp(x - top) }

  lemma {:induction false} WeighedSum(scores: seq<real>, weights: seq<real>, exp: real -> real, top: real)
    requires |weights| == |scores| && forall i :: 0 <= i < |scores| ==> weights[i] == exp(scores[i] - top)
    ensures Total(weights) == SumSeq(scores, WeightAt(exp, top))
  {
    if scores != [] {
      var n := |scores| - 1;
      WeighedSum(scores[..n], weights[..n], exp, top);
    }
  }

  lemma ClampedShare(weight: real, total: real, capital: real)
    requires total > 0.0
    ensures weight * capital <= 100.0 * total ==> Target(weight, total, capital) == 100.0
    ensures 100.0 * total <= weight * capital <= 5000.0 * total ==>
      Target(weight, total, capital) * total == weight * capital
    ensures weight * capital >= 5000.0 * total ==> Target(weight, total, capital) == 5000.0
  {
    var share := Portion(weight, total, capital);
    assert share * total == weight * capital by { PortionTimes(weight, total, capital); }
    hide Portion;
    if share < 100.0 {
      StrictlyBelow(share, 100.0, total);
    } else if share > 5000.0 {
      StrictlyBelow(5000.0, share, total);
    } else {
      NonNegative(share - 100.0, total);
      NonNegative(5000.0 - share, total);
    }
  }

  /**
   * A target is the strategy's softmax share of the pool: e to its score less the highest
   * one, over the sum of these, times the pool, where that is between 100 and 5000 dollars;
   * below it is 100 and above it 5000.
   */
  lemma TargetMeans(scores: seq<real>, exp: real -> real, capital: real, i: nat) returns (top: real, mass: real)
    requires scores != [] && ExpLike(exp) && i < |scores|
    ensures top in scores && (forall x :: x in scores ==> x <= top)
    ensures mass == SumSeq(scores, WeightAt(exp, top)) > 0.0
    ensures var share := exp(scores[i] - top) * capital;
      && (share <= 100.0 * mass ==> Targets(scores, exp, capital)[i] == 100.0)
      && (100.0 * mass <= share <= 5000.0 * mass ==> Targets(scores, exp, capital)[i] * mass == share)
      && (share >= 5000.0 * mass ==> Targets(scores, exp, capital)[i] == 5000.0)
  {
    hide Target, Targets, Weights, ExpLike, Total, MaxOf;
    top := MaxOf(scores);
    mass := Total(Weights(scores, exp));
    TargetAt(scores, exp, capital, i);
    WeighedSum(scores, Weights(scores, exp), exp, top);
    ClampedShare(Weights(scores, exp)[i], mass, capital);
  }

  lemma TargetAt(scores: seq<real>, exp: real -> real, capital: real, i: nat)
    requires scores != [] && ExpLike(exp) && i < |scores|
    ensures |Weights(scores, exp)| == |scores| && Total(Weights(scores, exp)) > 0.0
    ensures forall j :: 0 <= j < |scores| ==> Weights(scores, exp)[j] == exp(scores[j] - MaxOf(scores))
    ensures Targets(scores, exp, capital)[i] == Target(Weights(scores, exp)[i], Total(Weights(scores, exp)), capital)
  {
    hide Target, Total, MaxOf;
    WeightsPositive(scores, exp);
  }

  /**
   * In a cycle a strategy that has lost at most a fifth goes to its target if that is
   * within a tenth of the pool, and otherwise a tenth of the pool towards it; a new one
   * starts at its target.
   */
  lemma CycleMeans(w: Wealth, ss: seq<Strategy>, exp: real -> real, k: nat)
    requires Ready(ss) && ExpLike(exp) && DistinctIds(ss) && k < |Active(ss)| && w.capital >= 0.0
    ensures Active(ss)[k].totalLoss <= 0.20 && Active(ss)[k].id in Cycle(w, ss, exp).allocations
    ensures var id, target, tenth := Active(ss)[k].id, TargetOf(w, ss, exp, k), w.capital / 10.0;
      Cycle(w, ss, exp).allocations[id] ==
        if id !in w.allocations || -tenth <= target - w.allocations[id] <= tenth then target
        else if target > w.allocations[id] then w.allocations[id] + tenth else w.allocations[id] - tenth
  {
    hide Cycle, TargetOf, ExpLike, Ready, DistinctIds, Active;
    SolventActive(ss, k);
    CycleSteps(w, ss, exp, k);
  }

  lemma SolventActive(ss: seq<Strategy>, k: nat)
    requires DistinctIds(ss) && k < |Active(ss)|
    ensures Solvent(Active(ss)[k])
  {
    ActiveIs(ss);
    assert Active(ss)[k] in Active(ss);
  }

  /** A cycle with a solvent strategy saves exactly what it leaves; one without saves nothing. */
  lemma CycleSaves(w: Wealth, ss: seq<Strategy>, exp: real -> real)
    requires Ready(ss) && ExpLike(exp)
    ensures var w' := Cycle(w, ss, exp);
      if exists i :: 0 <= i < |ss| && ss[i].totalLoss <= 0.20
      then w'.file.Some? && w'.file.value.allocations == w'.allocations && w'.file.value.scores == w'.scores
           && w'.file.value.capital == w.capital
      else w'.file == w.file
  {
    hide Targets, Damped, Zeroed, ById, Scores, ExpLike;
    if i :| 0 <= i < |ss| && ss[i].totalLoss <= 0.20 {
      FilterMember(ss, (s: Strategy) => Solvent(s), ss[i]);
    }
    if Active(ss) != [] {
      FilterMember(ss, (s: Strategy) => Solvent(s), Active(ss)[0]);
    }
  }

  /** A cycle records the score of each solvent strategy and zero for each bankrupt one. */
  lemma CycleScores(w: Wealth, ss: seq<Strategy>, exp: real -> real, i: nat)
    requires Ready(ss) && ExpLike(exp) && DistinctIds(ss) && i < |ss|
    ensures ss[i].totalLoss <= 0.20 ==> Scorable(ss[i])
    ensures ss[i].id in Cycle(w, ss, exp).scores
    ensures Cycle(w, ss, exp).scores[ss[i].id] == if ss[i].totalLoss <= 0.20 then Score(ss[i]) else 0.0
  {
    hide Targets, Damped, Zeroed, ById, ExpLike, Score, Active;
    ActiveIs(ss);
    var active := Active(ss);
    ZeroedAt(w.scores, ss, ss[i].id);
    if Solvent(ss[i]) {
      ActivePrefix(ss, i);
      assert ss[i] in active;
      var k: nat :| k < |active| && active[k] == ss[i];
      ByIdAt(active, Scores(active), k);
    } else if active != [] {
      assert forall k :: 0 <= k < |active| ==> active[k] in ss;
      ByIdOnly(active, Scores(active), ss[i].id);
    }
  }

  // ---- many cycles ----

  predicate AllReady(history: seq<seq<Strategy>>) {
    forall i :: 0 <= i < |history| ==> Ready(history[i]) && DistinctIds(history[i])
  }

  ghost function Run(w: Wealth, history: seq<seq<Strategy>>, exp: real -> real): (r: Wealth)
    requires AllReady(history) && ExpLike(exp)
    ensures r.capital == w.capital
  {
    if history == [] then w
    else Cycle(Run(w, history[..|history| - 1], exp), history[|history| - 1], exp)
  }

  predicate InRange(x: real) { MIN_ALLOCATION <= x <= MAX_ALLOCATION }

  /** Killed, or within the allowed range. */
  predicate Banded(x: real) { x == 0.0 || InRange(x) }

  predicate AllBanded(w: Wealth) { forall id :: id in w.allocations ==> Banded(w.allocations[id]) }

  /** A killed strategy comes back into the range in one step exactly when a step is that large. */
  lemma RevivesIff(target: real, step: real)
    requires InRange(target) && step >= 0.0
    ensures InRange(Stepped(0.0, target, step)) <==> step >= MIN_ALLOCATION
  {
  }

  lemma StepStaysInRange(current: real, target: real, step: real)
    requires InRange(current) && InRange(target) && step >= 0.0
    ensures InRange(Stepped(current, target, step))
  {
  }

  lemma CycleBands(w: Wealth, ss: seq<Strategy>, exp: real -> real, id: string)
    requires Ready(ss) && ExpLike(exp) && DistinctIds(ss) && w.capital * DAMPING >= MIN_ALLOCATION
    requires AllBanded(w) && id in Cycle(w, ss, exp).allocations
    ensures Banded(Cycle(w, ss, exp).allocations[id])
    ensures (exists k :: 0 <= k < |Active(ss)| && Active(ss)[k].id == id) ==>
      InRange(Cycle(w, ss, exp).allocations[id])
  {
    hide Cycle, Active, ExpLike, Scores, Stepped;
    CycleOthers(w, ss, exp, id);
    ActiveIs(ss);
    if i :| 0 <= i < |ss| && ss[i].id == id {
      if Solvent(ss[i]) {
        assert ss[i] in Active(ss);
      }
    }
    if k: nat :| k < |Active(ss)| && Active(ss)[k].id == id {
      var target, step := TargetOf(w, ss, exp, k), w.capital * DAMPING;
      CycleSteps(w, ss, exp, k);
      RevivesIff(target, step);
      var current := if id in w.allocations && w.allocations[id] != 0.0 then w.allocations[id] else target;
      StepStaysInRange(current, target, step);
    }
  }

  /** Over any run, every allocation is zero or within the range. */
  lemma {:induction false} AlwaysBanded(w: Wealth, history: seq<seq<Strategy>>, exp: real -> real)
    requires AllReady(history) && ExpLike(exp) && w.capital * DAMPING >= MIN_ALLOCATION
    requires AllBanded(w)
    ensures AllBanded(Run(w, history, exp))
  {
    if history != [] {
      hide Cycle, ExpLike, Ready, DistinctIds;
      var before, ss := Run(w, history[..|history| - 1], exp), history[|history| - 1];
      AlwaysBanded(w, history[..|history| - 1], exp);
      forall id | id in Cycle(before, ss, exp).allocations
        ensures Banded(Cycle(before, ss, exp).allocations[id])
      {
        CycleBands(before, ss, exp, id);
      }
    }
  }

  /** The strategy is never listed as bankrupt. */
  ghost predicate NeverBankrupt(history: seq<seq<Strategy>>, id: string) {
    forall i, k :: 0 <= i < |history| && 0 <= k < |history[i]| && history[i][k].id == id ==> Solvent(history[i][k])
  }

  lemma CycleKeepsRange(w: Wealth, ss: seq<Strategy>, exp: real -> real, id: string)
    requires Ready(ss) && ExpLike(exp) && DistinctIds(ss) && w.capital >= 0.0
    requires forall k :: 0 <= k < |ss| && ss[k].id == id ==> Solvent(ss[k])
    requires id in w.allocations ==> InRange(w.allocations[id])
    ensures id in Cycle(w, ss, exp).allocations ==> InRange(Cycle(w, ss, exp).allocations[id])
  {
    hide Cycle, Active, ExpLike, Scores, Stepped;
    CycleOthers(w, ss, exp, id);
    ActiveIs(ss);
    if i :| 0 <= i < |ss| && ss[i].id == id {
      assert ss[i] in Active(ss);
      var k: nat :| k < |Active(ss)| && Active(ss)[k] == ss[i];
      var target := TargetOf(w, ss, exp, k);
      CycleSteps(w, ss, exp, k);
      StepStaysInRange(if id in w.allocations then w.allocations[id] else target, target, w.capital * DAMPING);
    }
  }

  /** Whatever the pool, a strategy that starts in range or new and is never bankrupt stays in range. */
  lemma {:induction false} AlwaysInRange(w: Wealth, history: seq<seq<Strategy>>, exp: real -> real, id: string)
    requires AllReady(history) && ExpLike(exp) && w.capital >= 0.0 && NeverBankrupt(history, id)
    requires id in w.allocations ==> InRange(w.allocations[id])
    ensures id in Run(w, history, exp).allocations ==> InRange(Run(w, history, exp).allocations[id])
  {
    if history != [] {
      hide Cycle, ExpLike, Ready, DistinctIds, InRange;
      AlwaysInRange(w, history[..|history| - 1], exp, id);
      CycleKeepsRange(Run(w, history[..|history| - 1], exp), history[|history| - 1], exp, id);
    }
  }

  /** With a pool of 500 a step is 50: a killed strategy with target 100 comes back below the minimum. */
  lemma SmallStepRevivesLow()
    ensures !InRange(Stepped(0.0, 100.0, 500.0 * DAMPING))
  {
    RevivesIff(100.0, 500.0 * DAMPING);
  }

  /** Both strategies are solvent in the cycle and the first does not outscore the second. */
  ghost predicate Ranked(ss: seq<Strategy>, low: string, high: string)
    requires Ready(ss)
  {
    exists i, j ::
      0 <= i < |Active(ss)| && 0 <= j < |Active(ss)| && Active(ss)[i].id == low && Active(ss)[j].id == high
      && Score(Active(ss)[i]) <= Score(Active(ss)[j])
  }

  predicate Ordered(w: Wealth, low: string, high: string) {
    low in w.allocations && high in w.allocations && w.allocations[low] <= w.allocations[high]
  }

  lemma StepMonotone(x: real, y: real, s: real, t: real, step: real)
    requires x <= y && s <= t && step >= 0.0
    ensures Stepped(x, s, step) <= Stepped(y, t, step)
  {
  }

  lemma CycleKeepsOrder(w: Wealth, ss: seq<Strategy>, exp: real -> real, low: string, high: string)
    requires Ready(ss) && ExpLike(exp) && DistinctIds(ss) && w.capital >= 0.0
    requires Ranked(ss, low, high) && Ordered(w, low, high)
    ensures Ordered(Cycle(w, ss, exp), low, high)
  {
    hide Cycle, ExpLike, Stepped, Score, Targets, Active;
    var active := Active(ss);
    var i: nat, j: nat :| i < |active| && j < |active| && active[i].id == low && active[j].id == high
      && Score(active[i]) <= Score(active[j]);
    CycleSteps(w, ss, exp, i);
    CycleSteps(w, ss, exp, j);
    TargetsRespectScores(Scores(active), exp, w.capital, i, j);
    StepMonotone(w.allocations[low], w.allocations[high], TargetOf(w, ss, exp, i), TargetOf(w, ss, exp, j),
                 w.capital * DAMPING);
  }

  /** While the scores of two strategies keep their order, so do their allocations. */
  lemma {:induction false} OrderKept(w: Wealth, history: seq<seq<Strategy>>, exp: real -> real,
                                     low: string, high: string)
    requires AllReady(history) && ExpLike(exp) && w.capital >= 0.0
    requires forall i :: 0 <= i < |history| ==> Ranked(history[i], low, high)
    requires Ordered(w, low, high)
    ensures Ordered(Run(w, history, exp), low, high)
  {
    if history != [] {
      hide Cycle, ExpLike, Ready, DistinctIds, Ranked, Ordered;
      OrderKept(w, history[..|history| - 1], exp, low, high);
      CycleKeepsOrder(Run(w, history[..|history| - 1], exp), history[|history| - 1], exp, low, high);
    }
  }

  /** k cycles in which nothing about the strategies changes. */
  ghost function Repeat(w: Wealth, ss: seq<Strategy>, exp: real -> real, k: nat): (r: Wealth)
    requires Ready(ss) && ExpLike(exp)
    ensures r.capital == w.capital
  {
    if k == 0 then w else Cycle(Repeat(w, ss, exp, k - 1), ss, exp)
  }

  lemma StepCloses(current: real, target: real, step: real)
    requires step >= 0.0
    ensures Gap(Stepped(current, target, step), target) == Max(0.0, Gap(current, target) - step)
  {
  }

  /** What is left of a gap after n steps towards the target. */
  function Left(gap: real, step: real, n: nat): real { Max(0.0, gap - n as real * step) }

  lemma LeftAfter(gap: real, step: real, n: nat)
    requires step >= 0.0 && n > 0
    ensures Left(gap, step, n) == Max(0.0, Left(gap, step, n - 1) - step)
  {
    assert n as real * step == (n - 1) as real * step + step;
    NonNegative((n - 1) as real, step);
  }

  lemma LeftAtStart(gap: real, step: real)
    requires gap >= 0.0
    ensures Left(gap, step, 0) == gap
  {
  }

  lemma CycleCloses(w: Wealth, ss: seq<Strategy>, exp: real -> real, i: nat)
    requires Ready(ss) && ExpLike(exp) && DistinctIds(ss) && i < |Active(ss)| && w.capital >= 0.0
    requires Active(ss)[i].id in w.allocations
    ensures Active(ss)[i].id in Cycle(w, ss, exp).allocations
    ensures Gap(Cycle(w, ss, exp).allocations[Active(ss)[i].id], TargetOf(w, ss, exp, i))
      == Max(0.0, Gap(w.allocations[Active(ss)[i].id], TargetOf(w, ss, exp, i)) - w.capital * DAMPING)
  {
    hide Cycle, ExpLike, Stepped, Gap, Active, TargetOf, DistinctIds;
    CycleSteps(w, ss, exp, i);
    StepCloses(w.allocations[Active(ss)[i].id], TargetOf(w, ss, exp, i), w.capital * DAMPING);
  }

  lemma SameTarget(w: Wealth, v: Wealth, ss: seq<Strategy>, exp: real -> real, i: nat)
    requires Ready(ss) && ExpLike(exp) && i < |Active(ss)| && v.capital == w.capital
    ensures TargetOf(v, ss, exp, i) == TargetOf(w, ss, exp, i)
  {
  }

  /** With constant scores the gap to the target after n cycles is exactly max(0, gap - n * step). */
  lemma {:induction false} Convergence(w: Wealth, ss: seq<Strategy>, exp: real -> real, i: nat, n: nat)
    requires Ready(ss) && ExpLike(exp) && DistinctIds(ss) && i < |Active(ss)| && w.capital >= 0.0
    requires Active(ss)[i].id in w.allocations
    ensures Active(ss)[i].id in Repeat(w, ss, exp, n).allocations
    ensures Gap(Repeat(w, ss, exp, n).allocations[Active(ss)[i].id], TargetOf(w, ss, exp, i))
      == Left(Gap(w.allocations[Active(ss)[i].id], TargetOf(w, ss, exp, i)), w.capital * DAMPING, n)
  {
    hide Cycle, ExpLike, Stepped, Gap, Active, TargetOf, Ready, DistinctIds, Left;
    var id, target, step := Active(ss)[i].id, TargetOf(w, ss, exp, i), w.capital * DAMPING;
    if n > 0 {
      var before := Repeat(w, ss, exp, n - 1);
      Convergence(w, ss, exp, i, n - 1);
      SameTarget(w, before, ss, exp, i);
      CycleCloses(before, ss, exp, i);
      LeftAfter(Gap(w.allocations[id], target), step, n);
    } else {
      GapNonNegative(w.allocations[id], target);
      LeftAtStart(Gap(w.allocations[id], target), step);
    }
  }

  lemma GapNonNegative(current: real, target: real)
    ensures Gap(current, target) >= 0.0
  {
  }

  // ---- the object ----

  lemma DampNone(m: map<string, real>, targets: map<string, real>, step: real)
    ensures Damped(m, targets - targets.Keys, step) == m
  {
  }

  lemma LatestNone(m: map<string, real>, latest: map<string, real>)
    ensures m + (latest - latest.Keys) == m
  {
  }

  lemma NothingRemoved(m: map<string, real>)
    ensures m - {} == m
  {
  }

  /** Stepping one more target does not see the steps already taken. */
  lemma DampOne(m: map<string, real>, targets: map<string, real>, rest: set<string>, id: string, step: real)
    requires rest <= targets.Keys && id in rest
    ensures var done := Damped(m, targets - rest, step);
      Damped(m, targets - (rest - {id}), step)
      == done[id := Stepped(CurrentOr(done, id, targets[id]), targets[id], step)]
  {
    hide Stepped;
  }

  lemma LatestOne(m: map<string, real>, latest: map<string, real>, rest: set<string>, id: string)
    requires rest <= latest.Keys && id in rest
    ensures m + (latest - (rest - {id})) == (m + (latest - rest))[id := latest[id]]
  {
  }

  class WealthManager {
    const capital: real
    var allocations: map<string, real>
    var scores: map<string, real>
    var file: Option<Saved>

    ghost function State(): Wealth
      reads this
    {
      Wealth(capital, allocations, scores, file)
    }

    /** What the file held, if anything could be read from it. */
    constructor (capital: real, file: Option<Saved>)
      ensures State() == Wealth(capital, if file.Some? then file.value.allocations else map[], map[], file)
    {
      this.capital := capital;
      this.file := file;
      allocations := if file.Some? then file.value.allocations else map[];
      scores := map[];
    }

    method Allocate(strategies: seq<Strategy>, exp: real -> real)
      requires Ready(strategies) && ExpLike(exp)
      modifies this
      ensures State() == Cycle(old(State()), strategies, exp)
    {
      hide Targets, Stepped, Damped, Zeroed, ExpLike, Active, ById;
      var active, raw := Triage(strategies);
      if active == [] {
        return;
      }
      var targets := TargetDollars(active, raw, exp, capital);
      var latest := ById(active, raw);
      ByIdKeys(active, raw, Targets(raw, exp, capital));
      Damp(targets, latest);
      file := Some(Saved(allocations, scores, capital));
    }

    /** One damped step for every target. */
    method Damp(targets: map<string, real>, latest: map<string, real>)
      requires targets.Keys == latest.Keys
      modifies this`allocations, this`scores
      ensures allocations == Damped(old(allocations), targets, capital * DAMPING)
      ensures scores == old(scores) + latest
    {
      hide Stepped, Damped, CurrentOr;
      var step := capital * DAMPING;
      var rest := targets.Keys;
      DampNone(allocations, targets, step);
      LatestNone(scores, latest);
      while rest != {}
        invariant rest <= targets.Keys
        invariant allocations == Damped(old(allocations), targets - rest, step)
        invariant scores == old(scores) + (latest - rest)
        decreases |rest|
      {
        var id :| id in rest;
        var current := CurrentOr(allocations, id, targets[id]);
        DampOne(old(allocations), targets, rest, id, step);
        LatestOne(old(scores), latest, rest, id);
        allocations := allocations[id := Stepped(current, targets[id], step)];
        scores := scores[id := latest[id]];
        rest := rest - {id};
      }
      assert rest == {};
      NothingRemoved(targets);
      NothingRemoved(latest);
    }

    /** Zero the bankrupt, collect the solvent and their scores. */
    method Triage(strategies: seq<Strategy>) returns (active: seq<Strategy>, raw: seq<real>)
      requires Ready(strategies)
      modifies this`allocations, this`scores
      ensures active == Active(strategies) && raw == Scores(active)
      ensures allocations == Zeroed(old(allocations), strategies) && scores == Zeroed(old(scores), strategies)
    {
      active, raw := [], [];
      for i := 0 to |strategies|
        invariant active == Active(strategies[..i]) && AllScorable(active) && raw == Scores(active)
        invariant allocations == Zeroed(old(allocations), strategies[..i])
        invariant scores == Zeroed(old(scores), strategies[..i])
      {
        var s := strategies[i];
        assert strategies[..i + 1][..i] == strategies[..i];
        ActivePrefix(strategies, i);
        if !Solvent(s) {
          allocations := allocations[s.id := 0.0];
          scores := scores[s.id := 0.0];
        } else {
          assert (active + [s])[..|active|] == active;
          active, raw := active + [s], raw + [Score(s)];
        }
      }
      assert strategies[..|strategies|] == strategies;
    }
  }

  /** A solvent strategy among the listed ones can be scored. */
  lemma ActivePrefix(ss: seq<Strategy>, i: nat)
    requires Ready(ss) && i < |ss|
    ensures Solvent(ss[i]) ==> Scorable(ss[i])
  {
    FilterMember(ss, (s: Strategy) => Solvent(s), ss[i]);
    if Solvent(ss[i]) {
      var k :| 0 <= k < |Active(ss)| && Active(ss)[k] == ss[i];
    }
  }

  lemma {:induction false} ByIdKeys(ss: seq<Strategy>, xs: seq<real>, ys: seq<real>)
    requires |xs| == |ss| && |ys| == |ss|
    ensures ById(ss, xs).Keys == ById(ss, ys).Keys
  {
    if ss != [] {
      ByIdKeys(ss[..|ss| - 1], xs[..|ss| - 1], ys[..|ss| - 1]);
    }
  }

  method TargetDollars(active: seq<Strategy>, raw: seq<real>, exp: real -> real, capital: real)
    returns (targets: map<string, real>)
    requires active != [] && |raw| == |active| && ExpLike(exp)
    ensures targets == ById(active, Targets(raw, exp, capital))
  {
    WeightsPositive(raw, exp);
    var weights := Weights(raw, exp);
    var total := Total(weights);
    ghost var values := Targets(raw, exp, capital);
    targets := map[];
    for i := 0 to |active|
      invariant targets == ById(active[..i], values[..i])
    {
      assert active[..i + 1][..i] == active[..i] && values[..i + 1][..i] == values[..i];
      targets := targets[active[i].id := Target(weights[i], total, capital)];
    }
    assert active[..|active|] == active && values[..|active|] == values;
  }
}
