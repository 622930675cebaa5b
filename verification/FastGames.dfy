/** Outcome mapping of the fast games: internal/games/dice.go, summon.go, scratch.go, service.go (derive). */
module FastGames {
  import opened Numbers
  import opened Decimal
  import opened Wrappers
  import opened PrizeTable
  import opened Wagers

  /** The answers a server seed gives: one uniform draw below n per domain. */
  type Source = f: (string, nat) -> nat | (forall d, n :: n > 0 ==> f(d, n) < n)
    witness (d: string, n: nat) => 0

  datatype Config = DiceConfig(pushOnTriple: bool) | PrizeConfig(version: string, prizes: seq<Prize>)

  /** The configurations the constructors can produce. */
  predicate ValidConfig(game: Game, c: Config) {
    match game
    case Dice => c.DiceConfig?
    case Scratch => c.PrizeConfig? && Accepted(c.version, c.prizes, ScratchFrozen(), "scratch-prize-v1")
    case Summon => c.PrizeConfig? && Accepted(c.version, c.prizes, SummonFrozen(), "summon-prize-v1")
    case Blackjack => true
  }

  datatype Side = Big | Small | Triple

  function SideOf(a: nat, b: nat, d: nat): Side {
    if a == b == d then Triple else if a + b + d <= 10 then Small else Big
  }

  function Classify(dice: seq<nat>): Side
    requires |dice| == 3
  {
    SideOf(dice[0], dice[1], dice[2])
  }

  /** Total payout as a multiple of the wager: double on a hit, the wager back on a pushed triple. */
  function Reward(side: Side, choice: Side, pushOnTriple: bool): nat {
    if side == Triple && pushOnTriple then 1 else if side == choice then 2 else 0
  }

  function DiceMultiple(dice: seq<nat>, choice: Side, pushOnTriple: bool): nat
    requires |dice| == 3
  {
    Reward(Classify(dice), choice, pushOnTriple)
  }

  const DICE_DOMAINS: seq<string> := ["dice:d1", "dice:d2", "dice:d3"]

  function Faces(source: Source): (dice: seq<nat>)
    ensures |dice| == 3 && forall i :: 0 <= i < 3 ==> 1 <= dice[i] <= 6
  {
    [source("dice:d1", 6) + 1, source("dice:d2", 6) + 1, source("dice:d3", 6) + 1]
  }

  method RollDice(source: Source, pushOnTriple: bool, choice: Side) returns (dice: array<nat>, multiple: nat)
    requires choice != Triple
    ensures fresh(dice) && dice.Length == 3 && dice[..] == Faces(source)
    ensures multiple == DiceMultiple(dice[..], choice, pushOnTriple)
  {
    dice := new nat[3](_ => 0);
    for i := 0 to 3
      invariant forall k :: 0 <= k < i ==> dice[k] == source(DICE_DOMAINS[k], 6) + 1
    {
      dice[i] := source(DICE_DOMAINS[i], 6) + 1;
    }
    assert dice[..] == Faces(source);
    var side := Classify(dice[..]);
    multiple := if side == choice then 2 else 0;
    if side == Triple && pushOnTriple {
      multiple := 1;
    }
  }

  // ------------------------------------------------------- dice statistics

  /** What is summed over the faces: rolls of a side, or the payout multiples of a choice. */
  datatype Measure = Rolls(side: Side) | Pays(choice: Side, pushOnTriple: bool)

  function Score(m: Measure, a: nat, b: nat, d: nat): nat {
    match m
    case Rolls(side) => if SideOf(a, b, d) == side then 1 else 0
    case Pays(choice, pushOnTriple) => Reward(SideOf(a, b, d), choice, pushOnTriple)
  }

  /** Sums over dice of n faces: the last die up to k, the last two with the second up to k, all three with the first up
      to k. */
  function Last(m: Measure, a: nat, b: nat, k: nat): nat {
    if k == 0 then 0 else Last(m, a, b, k - 1) + Score(m, a, b, k)
  }
  function LastTwo(m: Measure, a: nat, k: nat, n: nat): nat {
    if k == 0 then 0 else LastTwo(m, a, k - 1, n) + Last(m, a, k, n)
  }
  function AllThree(m: Measure, k: nat, n: nat): nat {
    if k == 0 then 0 else AllThree(m, k - 1, n) + LastTwo(m, k, n, n)
  }

  /** The constructor's exhaustive count over all rolls of three n-sided dice. */
  method CountRolls(n: nat) returns (small: nat, big: nat, triple: nat)
    ensures small == AllThree(Rolls(Small), n, n) && big == AllThree(Rolls(Big), n, n)
    ensures triple == AllThree(Rolls(Triple), n, n)
  {
    small, big, triple := 0, 0, 0;
    for a := 1 to n + 1
      invariant small == AllThree(Rolls(Small), a - 1, n)
      invariant big == AllThree(Rolls(Big), a - 1, n) && triple == AllThree(Rolls(Triple), a - 1, n)
    {
      var s, g, t := CountFrom(a, n);
      small, big, triple := small + s, big + g, triple + t;
    }
  }

  method CountFrom(a: nat, n: nat) returns (small: nat, big: nat, triple: nat)
    ensures small == LastTwo(Rolls(Small), a, n, n) && big == LastTwo(Rolls(Big), a, n, n)
    ensures triple == LastTwo(Rolls(Triple), a, n, n)
  {
    small, big, triple := 0, 0, 0;
    for b := 1 to n + 1
      invariant small == LastTwo(Rolls(Small), a, b - 1, n)
      invariant big == LastTwo(Rolls(Big), a, b - 1, n) && triple == LastTwo(Rolls(Triple), a, b - 1, n)
    {
      ghost var s0, g0, t0 := small, big, triple;
      for d := 1 to n + 1
        invariant small == s0 + Last(Rolls(Small), a, b, d - 1)
        invariant big == g0 + Last(Rolls(Big), a, b, d - 1) && triple == t0 + Last(Rolls(Triple), a, b, d - 1)
      {
        match SideOf(a, b, d)
        case Small => small := small + 1;
        case Big => big := big + 1;
        case Triple => triple := triple + 1;
      }
    }
  }

  /** The measures of the three sides. */
  predicate Sides(small: Measure, big: Measure, triple: Measure) {
    && small.Rolls? && small.side.Small? && big.Rolls? && big.side.Big? && triple.Rolls? && triple.side.Triple?
  }

  /** Every roll is of one side. */
  lemma {:induction false} LastSides(small: Measure, big: Measure, triple: Measure, a: nat, b: nat, k: nat)
    requires Sides(small, big, triple)
    ensures Last(small, a, b, k) + Last(big, a, b, k) + Last(triple, a, b, k) == k
  {
    if k > 0 { LastSides(small, big, triple, a, b, k - 1); }
  }

  lemma {:induction false} LastTwoSides(small: Measure, big: Measure, triple: Measure, a: nat, k: nat, n: nat)
    requires Sides(small, big, triple) && n == 6
    ensures LastTwo(small, a, k, n) + LastTwo(big, a, k, n) + LastTwo(triple, a, k, n) == 6 * k
  {
    if k > 0 {
      LastTwoSides(small, big, triple, a, k - 1, n);
      LastSides(small, big, triple, a, k, n);
    }
  }

  lemma {:induction false} AllThreeSides(small: Measure, big: Measure, triple: Measure, k: nat, n: nat)
    requires Sides(small, big, triple) && n == 6
    ensures AllThree(small, k, n) + AllThree(big, k, n) + AllThree(triple, k, n) == 36 * k
  {
    if k > 0 {
      AllThreeSides(small, big, triple, k - 1, n);
      LastTwoSides(small, big, triple, k, n, n);
    }
  }

  /** Payouts are two for each roll of the choice, and one for each triple that pushes. */
  predicate PaysFor(pays: Measure, hit: Measure, triple: Measure) {
    && pays.Pays? && hit.Rolls? && hit.side == pays.choice && !hit.side.Triple? && triple.Rolls? && triple.side.Triple?
  }

  lemma {:induction false} LastPays(pays: Measure, hit: Measure, triple: Measure, a: nat, b: nat, k: nat)
    requires PaysFor(pays, hit, triple)
    ensures Last(pays, a, b, k) == 2 * Last(hit, a, b, k) + (if pays.pushOnTriple then Last(triple, a, b, k) else 0)
  {
    if k > 0 { LastPays(pays, hit, triple, a, b, k - 1); }
  }

  lemma {:induction false} LastTwoPays(pays: Measure, hit: Measure, triple: Measure, a: nat, k: nat, n: nat)
    requires PaysFor(pays, hit, triple)
    ensures LastTwo(pays, a, k, n)
         == 2 * LastTwo(hit, a, k, n) + (if pays.pushOnTriple then LastTwo(triple, a, k, n) else 0)
  {
    if k > 0 {
      LastTwoPays(pays, hit, triple, a, k - 1, n);
      LastPays(pays, hit, triple, a, k, n);
    }
  }

  lemma {:induction false} AllThreePays(pays: Measure, hit: Measure, triple: Measure, k: nat, n: nat)
    requires PaysFor(pays, hit, triple)
    ensures AllThree(pays, k, n) == 2 * AllThree(hit, k, n) + (if pays.pushOnTriple then AllThree(triple, k, n) else 0)
  {
    if k > 0 {
      AllThreePays(pays, hit, triple, k - 1, n);
      LastTwoPays(pays, hit, triple, k, n, n);
    }
  }

  lemma {:induction false} LastTriple(triple: Measure, a: nat, b: nat, k: nat)
    requires triple.Rolls? && triple.side.Triple?
    ensures Last(triple, a, b, k) == if a == b && 1 <= a <= k then 1 else 0
  {
    if k > 0 { LastTriple(triple, a, b, k - 1); }
  }

  lemma {:induction false} LastTwoTriple(triple: Measure, a: nat, k: nat, n: nat)
    requires triple.Rolls? && triple.side.Triple? && a <= n
    ensures LastTwo(triple, a, k, n) == if 1 <= a <= k then 1 else 0
  {
    if k > 0 {
      LastTwoTriple(triple, a, k - 1, n);
      LastTriple(triple, a, k, n);
    }
  }

  /** One triple for each face. */
  lemma {:induction false} AllThreeTriple(triple: Measure, k: nat, n: nat)
    requires triple.Rolls? && triple.side.Triple? && k <= n
    ensures AllThree(triple, k, n) == k
  {
    if k > 0 {
      AllThreeTriple(triple, k - 1, n);
      LastTwoTriple(triple, k, n, n);
    }
  }

  /** With two dice down, small wants the third at most ten less their sum, and no triple. */
  lemma {:induction false} LastSmall(small: Measure, a: nat, b: nat, k: nat)
    requires small.Rolls? && small.side.Small?
    ensures Last(small, a, b, k) == Max(0, Min(k, 10 - a - b)) - (if a == b && 1 <= a <= k && 3 * a <= 10 then 1 else 0)
  {
    if k > 0 { LastSmall(small, a, b, k - 1); }
  }

  /** The same counts in closed form, triples still included. */
  function LowTwo(a: nat, k: nat, n: nat): nat {
    if k == 0 then 0 else LowTwo(a, k - 1, n) + Max(0, Min(n, 10 - a - k))
  }
  function LowThree(k: nat, n: nat): nat { if k == 0 then 0 else LowThree(k - 1, n) + LowTwo(k, n, n) }

  lemma {:induction false} LastTwoSmall(small: Measure, a: nat, k: nat, n: nat)
    requires small.Rolls? && small.side.Small? && 1 <= a <= n && k <= n
    ensures LastTwo(small, a, k, n) == LowTwo(a, k, n) - (if a <= k && 3 * a <= 10 then 1 else 0)
  {
    if k > 0 {
      LastTwoSmall(small, a, k - 1, n);
      LastSmall(small, a, k, n);
    }
  }

  lemma {:induction false} AllThreeSmall(small: Measure, k: nat, n: nat)
    requires small.Rolls? && small.side.Small? && k <= n
    ensures AllThree(small, k, n) == LowThree(k, n) - Min(k, 3)
  {
    if k > 0 {
      AllThreeSmall(small, k - 1, n);
      LastTwoSmall(small, k, n, n);
    }
  }

  lemma LowRolls()
    ensures LowThree(6, 6) == 108
  {
    assert LowTwo(1, 6, 6) == 30 && LowTwo(2, 6, 6) == 26 && LowTwo(3, 6, 6) == 21;
    assert LowTwo(4, 6, 6) == 15 && LowTwo(5, 6, 6) == 10 && LowTwo(6, 6, 6) == 6;
  }

  /** Of the 216 rolls 105 are small, 105 big and 6 triples. */
  lemma {:induction false} RollCounts(small: Measure, big: Measure, triple: Measure, n: nat)
    requires Sides(small, big, triple) && n == 6
    ensures AllThree(small, n, n) == 105 && AllThree(big, n, n) == 105 && AllThree(triple, n, n) == 6
  {
    SmallCount(small, n);
    AllThreeTriple(triple, n, n);
    AllThreeSides(small, big, triple, n, n);
  }

  lemma {:induction false} SmallCount(small: Measure, n: nat)
    requires small.Rolls? && small.side.Small? && n == 6
    ensures AllThree(small, n, n) == 105
  {
    AllThreeSmall(small, n, n);
    LowRolls();
  }

  /** Over them a choice pays 210 wagers, and 216 when triples push. */
  lemma {:induction false} PayStatistics(pays: Measure, hit: Measure, triple: Measure, n: nat)
    requires PaysFor(pays, hit, triple) && n == 6
    ensures AllThree(pays, n, n) == if pays.pushOnTriple then 216 else 210
  {
    HitCount(hit, n);
    AllThreeTriple(triple, n, n);
    AllThreePays(pays, hit, triple, n, n);
  }

  lemma {:induction false} HitCount(hit: Measure, n: nat)
    requires hit.Rolls? && !hit.side.Triple? && n == 6
    ensures AllThree(hit, n, n) == 105
  {
    if hit.side.Small? {
      SmallCount(hit, n);
    } else {
      RollCounts(Rolls(Small), hit, Rolls(Triple), n);
    }
  }

  function DrawDomain(i: nat): string { "summon:draw:" + Digits(i) }

  /** The prize of the i-th draw. */
  function DrawPrize(source: Source, prizes: seq<Prize>, i: nat): Result<Prize, SampleError> {
    PrizeAtSpec(prizes, source(DrawDomain(i), 100_000))
  }

  /** Sum of the first n draws' multipliers. */
  function DrawTotal(source: Source, prizes: seq<Prize>, n: nat): int
    requires forall i :: 1 <= i <= n ==> DrawPrize(source, prizes, i).Ok?
  {
    if n == 0 then 0 else DrawTotal(source, prizes, n - 1) + DrawPrize(source, prizes, n).value.multiplier
  }

  /** Lexical order of Go strings. */
  predicate Greater(a: string, b: string) {
    if b == "" then a != ""
    else if a == "" then false
    else a[0] > b[0] || (a[0] == b[0] && Greater(a[1..], b[1..]))
  }

  /** The tiers of the summon table are ordered the same way as their multipliers. */
  lemma TierOrder(p: Prize, q: Prize)
    requires Listed(p, SummonFrozen()) && Listed(q, SummonFrozen())
    ensures Greater(p.tier, q.tier) <==> p.multiplier > q.multiplier
  {
    var f := SummonFrozen();
    var i :| 0 <= i < 6 && f[i].tier == p.tier && f[i].multiplier == p.multiplier;
    var j :| 0 <= j < 6 && f[j].tier == q.tier && f[j].multiplier == q.multiplier;
    assert |p.tier| == 2 && |q.tier| == 2 && p.tier[0] == q.tier[0] == 'T';
    assert p.tier[1..] == [p.tier[1]] && q.tier[1..] == [q.tier[1]];
    assert Greater(p.tier[1..], q.tier[1..]) <==> p.tier[1] > q.tier[1] by {
      assert p.tier[1..][1..] == "" && q.tier[1..][1..] == "";
    }
  }

  function Choice(input: Input): Side { if input.choice == "BIG" then Big else Small }

  /** The payout multiple a seed gives; None where the source's mapping would report an error. */
  function Multiple(game: Game, input: Input, c: Config, source: Source): Option<int> {
    match game
    case Dice => if c.DiceConfig? then Some(DiceMultiple(Faces(source), Choice(input), c.pushOnTriple)) else None
    case Scratch =>
      if !c.PrizeConfig? then None
      else (match PrizeAtSpec(c.prizes, source("scratch:prize", 100_000))
            case Ok(p) => Some(p.multiplier)
            case Err(_) => None)
    case Summon =>
      if c.PrizeConfig? && (forall i :: 1 <= i <= Draws(game, input.mode) ==> DrawPrize(source, c.prizes, i).Ok?)
      then Some(DrawTotal(source, c.prizes, Draws(game, input.mode)))
      else None
    case Blackjack => None
  }

  lemma {:induction false} DrawTotalBounded(source: Source, version: string, prizes: seq<Prize>, n: nat)
    requires Accepted(version, prizes, SummonFrozen(), "summon-prize-v1")
    ensures forall i :: 1 <= i <= n ==> DrawPrize(source, prizes, i).Ok?
    ensures 0 <= DrawTotal(source, prizes, n) <= 100 * n
  {
    if n > 0 {
      DrawTotalBounded(source, version, prizes, n - 1);
      SamplingTotal(version, prizes, SummonFrozen(), "summon-prize-v1", source(DrawDomain(n), 100_000));
      var p := DrawPrize(source, prizes, n).value;
      assert Listed(p, SummonFrozen());
    }
  }

  /** Whatever the seed, the mapping succeeds and pays at most the bound reserved before the draw. */
  lemma MultipleBounded(game: Game, input: Input, c: Config, source: Source)
    requires game != Blackjack && ValidConfig(game, c)
    ensures Multiple(game, input, c, source).Some?
    ensures 0 <= Multiple(game, input, c, source).value <= MaxMultiple(game, input.mode)
  {
    match game {
      case Dice =>
      case Scratch =>
        SamplingTotal(c.version, c.prizes, ScratchFrozen(), "scratch-prize-v1", source("scratch:prize", 100_000));
        assert Listed(PrizeAtSpec(c.prizes, source("scratch:prize", 100_000)).value, ScratchFrozen());
      case Summon => DrawTotalBounded(source, c.version, c.prizes, Draws(game, input.mode));
    }
  }
}
