/** Weighted prize tables: internal/games/config.go. */
module PrizeTable {
  import opened Wrappers

  const WEIGHT_TOTAL: int := 100_000

  datatype Prize = Prize(multiplier: int, tier: string, weight: int)

  function ScratchFrozen(): seq<Prize> {
    [Prize(0, "LOSS", 54000), Prize(1, "BREAK_EVEN", 19500), Prize(2, "T2", 18500),
     Prize(3, "T3", 5000), Prize(5, "T5", 2000), Prize(10, "T10", 800),
     Prize(25, "T25", 180), Prize(100, "TOP", 20)]
  }

  function SummonFrozen(): seq<Prize> {
    [Prize(0, "T0", 59850), Prize(1, "T1", 25000), Prize(2, "T2", 10000),
     Prize(5, "T3", 4000), Prize(20, "T4", 1050), Prize(100, "T5", 100)]
  }

  predicate VersionChar(c: char) {
    'a' <= c <= 'z' || 'A' <= c <= 'Z' || '0' <= c <= '9' || c == '-' || c == '_' || c == '.'
  }

  predicate ValidVersion(s: string) {
    0 < |s| <= 128 && forall i :: 0 <= i < |s| ==> VersionChar(s[i])
  }

  function TotalWeight(prizes: seq<Prize>): int {
    if prizes == [] then 0
    else TotalWeight(prizes[..|prizes| - 1]) + prizes[|prizes| - 1].weight
  }

  predicate Listed(p: Prize, frozen: seq<Prize>) {
    exists k :: 0 <= k < |frozen| && frozen[k].tier == p.tier && frozen[k].multiplier == p.multiplier
  }

  predicate ValidPrize(p: Prize, frozen: seq<Prize>) {
    0 <= p.weight <= WEIGHT_TOTAL && Listed(p, frozen)
  }

  predicate DistinctTiers(prizes: seq<Prize>) {
    forall i, j :: 0 <= i < j < |prizes| ==> prizes[i].tier != prizes[j].tier
  }

  function Tiers(prizes: seq<Prize>): set<string> { set i | 0 <= i < |prizes| :: prizes[i].tier }

  predicate RowsValid(prizes: seq<Prize>, frozen: seq<Prize>) {
    DistinctTiers(prizes) && forall i :: 0 <= i < |prizes| ==> ValidPrize(prizes[i], frozen)
  }

  /** The tables the constructor accepts, in any order and with zero weights. */
  predicate Accepted(version: string, prizes: seq<Prize>, frozen: seq<Prize>, frozenVersion: string) {
    && ValidVersion(version)
    && |prizes| == |frozen|
    && (version == frozenVersion ==> prizes == frozen)
    && RowsValid(prizes, frozen)
    && TotalWeight(prizes) == WEIGHT_TOTAL
  }

  /** The weight in front of prize i. */
  function Before(prizes: seq<Prize>, i: nat): int
    requires i <= |prizes|
  {
    TotalWeight(prizes[..i])
  }

  lemma BeforeStep(prizes: seq<Prize>, i: nat)
    requires i < |prizes|
    ensures Before(prizes, i + 1) == Before(prizes, i) + prizes[i].weight
  {
    assert prizes[..i + 1][..i] == prizes[..i];
  }

  /** A repeated tier is exactly one that an earlier row already carries. */
  lemma SeenTier(prizes: seq<Prize>, i: nat)
    requires i < |prizes|
    ensures Tiers(prizes[..i + 1]) == Tiers(prizes[..i]) + {prizes[i].tier}
    ensures prizes[i].tier in Tiers(prizes[..i]) ==> !DistinctTiers(prizes)
    ensures DistinctTiers(prizes[..i]) && prizes[i].tier !in Tiers(prizes[..i]) ==> DistinctTiers(prizes[..i + 1])
  {
    assert prizes[..i + 1] == prizes[..i] + [prizes[i]];
    if DistinctTiers(prizes[..i]) && prizes[i].tier !in Tiers(prizes[..i]) {
      var next := prizes[..i + 1];
      forall j, k | 0 <= j < k < |next|
        ensures next[j].tier != next[k].tier
      {
        assert prizes[..i][j].tier in Tiers(prizes[..i]);
      }
    }
  }

  method FindListed(p: Prize, frozen: seq<Prize>) returns (matched: bool)
    ensures matched == Listed(p, frozen)
  {
    for k := 0 to |frozen|
      invariant forall m :: 0 <= m < k ==> !(frozen[m].tier == p.tier && frozen[m].multiplier == p.multiplier)
    {
      if p.tier == frozen[k].tier && p.multiplier == frozen[k].multiplier {
        return true;
      }
    }
    return false;
  }

  /** The row loop: every row valid, no tier repeated; the weights are summed on the way. */
  method CheckRows(prizes: seq<Prize>, frozen: seq<Prize>) returns (ok: bool, total: int)
    ensures ok == RowsValid(prizes, frozen)
    ensures ok ==> total == TotalWeight(prizes)
  {
    var seen: set<string> := {};
    total := 0;
    for i := 0 to |prizes|
      invariant forall k :: 0 <= k < i ==> ValidPrize(prizes[k], frozen)
      invariant seen == Tiers(prizes[..i]) && DistinctTiers(prizes[..i])
      invariant total == Before(prizes, i)
    {
      var p := prizes[i];
      SeenTier(prizes, i);
      var matched := FindListed(p, frozen);
      if p.weight < 0 || p.weight > WEIGHT_TOTAL || !matched {
        assert !ValidPrize(p, frozen);
        return false, total;
      }
      if p.tier in seen {
        return false, total;
      }
      seen := seen + {p.tier};
      BeforeStep(prizes, i);
      total := total + p.weight;
    }
    assert prizes[..|prizes|] == prizes;
    ok := true;
  }

  method NewPrizeConfig(version: string, prizes: seq<Prize>, frozen: seq<Prize>, frozenVersion: string)
    returns (accepted: bool)
    ensures accepted == Accepted(version, prizes, frozen, frozenVersion)
  {
    if !ValidVersion(version) || |prizes| != |frozen| {
      return false;
    }
    if version == frozenVersion && prizes != frozen {
      return false;
    }
    var ok, total := CheckRows(prizes, frozen);
    return ok && total == WEIGHT_TOTAL;
  }

  /** The first prize whose cumulative weight exceeds the sample; the length when there is none. */
  function Hit(prizes: seq<Prize>, i: nat, cumulative: int, sample: int): (h: nat)
    requires i <= |prizes|
    ensures i <= h <= |prizes|
    decreases |prizes| - i
  {
    if i == |prizes| then i
    else if sample < cumulative + prizes[i].weight then i
    else Hit(prizes, i + 1, cumulative + prizes[i].weight, sample)
  }

  datatype SampleError = InvalidInput | InvalidConfig

  function PrizeAtSpec(prizes: seq<Prize>, sample: nat): Result<Prize, SampleError> {
    if sample >= WEIGHT_TOTAL || prizes == [] then Err(InvalidInput)
    else
      var h := Hit(prizes, 0, 0, sample);
      if h == |prizes| then Err(InvalidConfig) else Ok(prizes[h])
  }

  method PrizeAt(prizes: seq<Prize>, sample: nat) returns (r: Result<Prize, SampleError>)
    ensures r == PrizeAtSpec(prizes, sample)
  {
    if sample >= WEIGHT_TOTAL || prizes == [] {
      return Err(InvalidInput);
    }
    var cumulative := 0;
    for i := 0 to |prizes|
      invariant Hit(prizes, 0, 0, sample) == Hit(prizes, i, cumulative, sample)
    {
      cumulative := cumulative + prizes[i].weight;
      if sample < cumulative {
        return Ok(prizes[i]);
      }
    }
    return Err(InvalidConfig);
  }

  predicate NonNegative(prizes: seq<Prize>) {
    forall i :: 0 <= i < |prizes| ==> prizes[i].weight >= 0
  }

  lemma {:induction false} HitInterval(prizes: seq<Prize>, i: nat, sample: int)
    requires NonNegative(prizes) && i <= |prizes|
    requires Before(prizes, i) <= sample < TotalWeight(prizes)
    ensures var h := Hit(prizes, i, Before(prizes, i), sample);
            h < |prizes| && Before(prizes, h) <= sample < Before(prizes, h + 1)
    decreases |prizes| - i
  {
    assert prizes[..|prizes|] == prizes;
    if i < |prizes| {
      BeforeStep(prizes, i);
      if sample >= Before(prizes, i + 1) {
        HitInterval(prizes, i + 1, sample);
      }
    }
  }

  lemma {:induction false} BeforeMonotone(prizes: seq<Prize>, i: nat, j: nat)
    requires NonNegative(prizes) && i <= j <= |prizes|
    ensures Before(prizes, i) <= Before(prizes, j)
  {
    if i < j {
      BeforeStep(prizes, j - 1);
      BeforeMonotone(prizes, i, j - 1);
    }
  }

  /** A sample hits prize h exactly when it falls in that prize's interval of weights. */
  lemma HitExactly(prizes: seq<Prize>, h: nat, sample: nat)
    requires NonNegative(prizes) && h < |prizes| && sample < TotalWeight(prizes)
    ensures Hit(prizes, 0, 0, sample) == h <==> Before(prizes, h) <= sample < Before(prizes, h + 1)
  {
    assert Before(prizes, 0) == 0;
    HitInterval(prizes, 0, sample);
    var g := Hit(prizes, 0, 0, sample);
    if g < h { BeforeMonotone(prizes, g + 1, h); }
    if h < g { BeforeMonotone(prizes, h + 1, g); }
  }

  /** The samples lo..hi-1. */
  ghost function Interval(lo: int, hi: int): (r: set<int>)
    requires lo <= hi
    ensures forall s :: s in r <==> lo <= s < hi
    ensures |r| == hi - lo
    decreases hi - lo
  {
    if lo == hi then {} else Interval(lo, hi - 1) + {hi - 1}
  }

  /** Sampling is total on 0..99999. */
  lemma SamplingTotal(version: string, prizes: seq<Prize>, frozen: seq<Prize>, frozenVersion: string, sample: nat)
    requires Accepted(version, prizes, frozen, frozenVersion) && sample < WEIGHT_TOTAL
    ensures PrizeAtSpec(prizes, sample).Ok? && PrizeAtSpec(prizes, sample).value in prizes
  {
    assert Before(prizes, 0) == 0;
    HitInterval(prizes, 0, sample);
  }

  /** Each prize is hit by exactly as many of the 100000 samples as its weight says. */
  lemma TierHitByItsWeight(version: string, prizes: seq<Prize>, frozen: seq<Prize>, frozenVersion: string, h: nat)
    requires Accepted(version, prizes, frozen, frozenVersion) && h < |prizes|
    ensures |set s | 0 <= s < WEIGHT_TOTAL && PrizeAtSpec(prizes, s) == Ok(prizes[h])| == prizes[h].weight
  {
    var lo, hi := Before(prizes, h), Before(prizes, h + 1);
    BeforeStep(prizes, h);
    BeforeMonotone(prizes, 0, h);
    BeforeMonotone(prizes, h + 1, |prizes|);
    assert prizes[..|prizes|] == prizes;
    assert (set s | 0 <= s < WEIGHT_TOTAL && PrizeAtSpec(prizes, s) == Ok(prizes[h])) == Interval(lo, hi) by {
      forall s | 0 <= s < WEIGHT_TOTAL
        ensures PrizeAtSpec(prizes, s) == Ok(prizes[h]) <==> lo <= s < hi
      {
        HitExactly(prizes, h, s);
        assert Before(prizes, 0) == 0;
        HitInterval(prizes, 0, s);
        var g := Hit(prizes, 0, 0, s);
        assert g != h ==> prizes[g].tier != prizes[h].tier;
      }
    }
  }

  /** Sum of a per-prize quantity, once per unit of weight. */
  function Weighted(prizes: seq<Prize>, g: Prize -> int): int {
    if prizes == [] then 0
    else
      var last := prizes[|prizes| - 1];
      Weighted(prizes[..|prizes| - 1], g) + last.weight * g(last)
  }

  /** Sum of the same quantity over the first n samples. */
  ghost function SampleSum(prizes: seq<Prize>, g: Prize -> int, n: nat): int
  {
    if n == 0 then 0
    else
      var h := Hit(prizes, 0, 0, n - 1);
      SampleSum(prizes, g, n - 1) + (if h < |prizes| then g(prizes[h]) else 0)
  }

  /** One more sample of row `i` adds its value. */
  lemma SampleSumStep(prizes: seq<Prize>, g: Prize -> int, i: nat, n: nat)
    requires NonNegative(prizes) && i < |prizes| && n > 0
    requires Before(prizes, i) < n <= Before(prizes, i + 1)
    ensures SampleSum(prizes, g, n) == SampleSum(prizes, g, n - 1) + g(prizes[i])
  {
    BeforeMonotone(prizes, 0, i);
    BeforeMonotone(prizes, i + 1, |prizes|);
    assert prizes[..|prizes|] == prizes;
    HitExactly(prizes, i, n - 1);
  }

  lemma WeightedStep(prizes: seq<Prize>, g: Prize -> int, i: nat)
    requires i < |prizes|
    ensures Weighted(prizes[..i + 1], g) == Weighted(prizes[..i], g) + prizes[i].weight * g(prizes[i])
  {
    assert prizes[..i + 1][..i] == prizes[..i];
  }

  lemma {:induction false} SampleSumBlock(prizes: seq<Prize>, g: Prize -> int, i: nat, n: nat)
    requires NonNegative(prizes) && i < |prizes|
    requires 0 <= Before(prizes, i) <= n <= Before(prizes, i + 1)
    ensures SampleSum(prizes, g, n) == SampleSum(prizes, g, Before(prizes, i)) + (n - Before(prizes, i)) * g(prizes[i])
    decreases n
  {
    if n > Before(prizes, i) {
      SampleSumBlock(prizes, g, i, n - 1);
      SampleSumStep(prizes, g, i, n);
      OneMore(n - 1 - Before(prizes, i), g(prizes[i]));
    }
  }

  lemma OneMore(m: int, v: int)
    ensures (m + 1) * v == m * v + v
  {
  }

  lemma {:induction false} SampleSumRows(prizes: seq<Prize>, g: Prize -> int, i: nat)
    requires NonNegative(prizes) && i <= |prizes|
    ensures Before(prizes, i) >= 0 && SampleSum(prizes, g, Before(prizes, i)) == Weighted(prizes[..i], g)
  {
    if i > 0 {
      SampleSumRows(prizes, g, i - 1);
      BeforeStep(prizes, i - 1);
      SampleSumBlock(prizes, g, i - 1, Before(prizes, i));
      WeightedStep(prizes, g, i - 1);
    }
  }

  /** Any statistic summed over all samples is its weighted sum over the table. */
  lemma SamplingIsWeighted(version: string, prizes: seq<Prize>, frozen: seq<Prize>, frozenVersion: string,
                           g: Prize -> int)
    requires Accepted(version, prizes, frozen, frozenVersion)
    ensures SampleSum(prizes, g, WEIGHT_TOTAL) == Weighted(prizes, g)
  {
    assert prizes[..|prizes|] == prizes;
    SampleSumRows(prizes, g, |prizes|);
  }

  function Multiplier(p: Prize): int { p.multiplier }
  function IsLoss(p: Prize): int { if p.multiplier == 0 then 1 else 0 }
  function IsEven(p: Prize): int { if p.multiplier == 1 then 1 else 0 }
  function IsWin(p: Prize): int { if p.multiplier == 0 || p.multiplier == 1 then 0 else 1 }
  function IsTop(summon: bool, p: Prize): int { if p.tier == "TOP" || (summon && p.tier == "T5") then 1 else 0 }

  datatype Statistics = Statistics(rtp: int, loss: int, even: int, win: int, top: int)

  /** The numerators over 100000; each is the statistic summed over every possible sample. */
  method ComputeStatistics(version: string, prizes: seq<Prize>, frozen: seq<Prize>, frozenVersion: string, summon: bool)
    returns (s: Statistics)
    requires Accepted(version, prizes, frozen, frozenVersion)
    ensures s.rtp == SampleSum(prizes, Multiplier, WEIGHT_TOTAL)
    ensures s.loss == SampleSum(prizes, IsLoss, WEIGHT_TOTAL)
    ensures s.even == SampleSum(prizes, IsEven, WEIGHT_TOTAL)
    ensures s.win == SampleSum(prizes, IsWin, WEIGHT_TOTAL)
    ensures s.top == SampleSum(prizes, (p: Prize) => IsTop(summon, p), WEIGHT_TOTAL)
    ensures s.loss + s.even + s.win == WEIGHT_TOTAL
  {
    ghost var isTop := (p: Prize) => IsTop(summon, p);
    var payout, loss, even, win, top := 0, 0, 0, 0, 0;
    for i := 0 to |prizes|
      invariant payout == Weighted(prizes[..i], Multiplier)
      invariant loss == Weighted(prizes[..i], IsLoss)
      invariant even == Weighted(prizes[..i], IsEven)
      invariant win == Weighted(prizes[..i], IsWin)
      invariant top == Weighted(prizes[..i], isTop)
      invariant loss + even + win == Before(prizes, i)
    {
      var p := prizes[i];
      assert prizes[..i + 1][..i] == prizes[..i];
      payout := payout + p.weight * p.multiplier;
      if p.multiplier == 0 {
        loss := loss + p.weight;
      } else if p.multiplier == 1 {
        even := even + p.weight;
      } else {
        win := win + p.weight;
      }
      if p.tier == "TOP" || (summon && p.tier == "T5") {
        top := top + p.weight;
      }
    }
    assert prizes[..|prizes|] == prizes;
    SamplingIsWeighted(version, prizes, frozen, frozenVersion, Multiplier);
    SamplingIsWeighted(version, prizes, frozen, frozenVersion, IsLoss);
    SamplingIsWeighted(version, prizes, frozen, frozenVersion, IsEven);
    SamplingIsWeighted(version, prizes, frozen, frozenVersion, IsWin);
    SamplingIsWeighted(version, prizes, frozen, frozenVersion, isTop);
    s := Statistics(payout, loss, even, win, top);
  }

  lemma {:induction false} DistinctTierCount(prizes: seq<Prize>)
    requires DistinctTiers(prizes)
    ensures |Tiers(prizes)| == |prizes|
  {
    if prizes == [] {
      assert Tiers(prizes) == {};
    } else {
      var h := prizes[..|prizes| - 1];
      DistinctTierCount(h);
      assert Tiers(prizes) == Tiers(h) + {prizes[|prizes| - 1].tier};
    }
  }

  /** An accepted table is a reordering of the frozen one: no tier is missing, none is invented. */
  lemma EveryTierPresent(version: string, prizes: seq<Prize>, frozen: seq<Prize>, frozenVersion: string, k: nat)
    requires Accepted(version, prizes, frozen, frozenVersion) && DistinctTiers(frozen) && k < |frozen|
    ensures exists i :: 0 <= i < |prizes|
              && prizes[i].tier == frozen[k].tier && prizes[i].multiplier == frozen[k].multiplier
  {
    DistinctTierCount(prizes);
    DistinctTierCount(frozen);
    assert Tiers(prizes) <= Tiers(frozen);
    SubsetSameSize(Tiers(prizes), Tiers(frozen));
    assert frozen[k].tier in Tiers(prizes);
    var i :| 0 <= i < |prizes| && prizes[i].tier == frozen[k].tier;
    var m :| 0 <= m < |frozen| && frozen[m].tier == prizes[i].tier && frozen[m].multiplier == prizes[i].multiplier;
  }

  lemma SubsetSameSize(a: set<string>, b: set<string>)
    requires a <= b && |a| == |b|
    ensures a == b
  {
    assert b == a + (b - a);
    assert |b - a| == 0;
  }
}
