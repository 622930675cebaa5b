/** Wager normalization, the pre-draw guard and the bot's wager limits: internal/games/service_types.go,
    internal/games/service.go, internal/botgames. */
module Wagers {
  import opened Numbers
  import opened Decimal
  import opened Wrappers

  datatype Game = Dice | Scratch | Summon | Blackjack

  datatype Input = Input(kind: string, wager: string, choice: string, baseWager: string,
                         mode: string, totalWager: string, initialWager: string)

  datatype Normalized = Normalized(input: Input, base: nat, totalStake: nat, maxPayout: nat)

  datatype WagerError = BadWager

  /** Base inputs per round, and the largest payout as a multiple of one base input. */
  function Draws(game: Game, mode: string): nat { if game == Summon && mode == "TENFOLD" then 10 else 1 }

  function MaxMultiple(game: Game, mode: string): (m: nat)
    ensures m > Draws(game, mode)
  {
    match game
    case Dice => 2
    case Scratch => 100
    case Summon => 100 * Draws(game, mode)
    case Blackjack => 17
  }

  predicate Shape(game: Game, i: Input) {
    && i.totalWager == ""
    && (game != Blackjack ==> i.initialWager == "")
    && match game
       case Dice => i.kind == "DICE" && (i.choice == "BIG" || i.choice == "SMALL") && i.mode == "" && i.baseWager == ""
       case Scratch => i.kind == "SCRATCH" && i.choice == "" && i.mode == "" && i.baseWager == ""
       case Summon =>
         i.kind == "SUMMON" && i.choice == "" && i.wager == "" && (i.mode == "SINGLE" || i.mode == "TENFOLD")
       case Blackjack => i.kind == "BLACKJACK" && i.wager == "" && i.choice == "" && i.mode == "" && i.baseWager == ""
  }

  function Amount(game: Game, i: Input): string {
    match game
    case Summon => i.baseWager
    case Blackjack => i.initialWager
    case _ => i.wager
  }

  function WithAmount(game: Game, i: Input, text: string): (r: Input)
    ensures Amount(game, r) == text
  {
    match game
    case Summon => i.(baseWager := text)
    case Blackjack => i.(initialWager := text)
    case _ => i.(wager := text)
  }

  /** The range checks, made by division so that nothing they compare can overflow. */
  predicate ChipsFit(chips: nat, max: nat)
    requires max > 0
  {
    10 <= chips <= MAX_INT64 && chips <= MAX_INT64 / UNITS_PER_CHIP && chips * UNITS_PER_CHIP <= MAX_INT64 / max
  }

  /** Reads a whole-chip wager and bounds every quantity derived from it before it is formed. */
  function Normalize(game: Game, input: Input): Result<Normalized, WagerError> {
    var text := Amount(game, input);
    if !Shape(game, input) || text == "" || |text| > 19 || !AllDigits(text) then Err(BadWager)
    else
      var chips := Value(text);
      var max := MaxMultiple(game, input.mode);
      if !ChipsFit(chips, max) then Err(BadWager)
      else
        var base := chips * UNITS_PER_CHIP;
        Ok(Normalized(WithAmount(game, input, Digits(chips)), base, base * Draws(game, input.mode), base * max))
  }

  /** Every product normalization forms fits int64, and the stake is below the largest payout. */
  lemma NormalizedFits(game: Game, input: Input)
    requires Normalize(game, input).Ok?
    ensures var n := Normalize(game, input).value;
            && 10 * UNITS_PER_CHIP <= n.base <= n.totalStake < n.maxPayout <= MAX_INT64
            && n.totalStake == n.base * Draws(game, input.mode)
            && n.maxPayout == n.base * MaxMultiple(game, input.mode)
  {
    var n := Normalize(game, input).value;
    var m, d := MaxMultiple(game, input.mode), Draws(game, input.mode);
    MulBound(n.base, m, MAX_INT64);
    MulMonotone(n.base, 1, d);
    MulMonotone(n.base, d + 1, m);
    assert n.base * (d + 1) == n.base * d + n.base;
  }

  lemma MulMonotone(a: nat, b: nat, c: nat)
    requires b <= c
    ensures a * b <= a * c
  {
  }

  /** A division guard is the multiplication it avoids. */
  lemma MulBound(x: nat, d: nat, bound: nat)
    requires d > 0
    ensures x <= bound / d <==> x * d <= bound
  {
    var q := bound / d;
    assert q * d <= bound < (q + 1) * d;
    if x <= q { MulMonotone(d, x, q); } else { MulMonotone(d, q + 1, x); }
  }

  /** The request says nothing but what its game asks for. */
  predicate Asks(game: Game, i: Input, text: string) {
    match game
    case Dice => i in {Input("DICE", text, "BIG", "", "", "", ""), Input("DICE", text, "SMALL", "", "", "", "")}
    case Scratch => i == Input("SCRATCH", text, "", "", "", "", "")
    case Summon =>
      i in {Input("SUMMON", "", "", text, "SINGLE", "", ""), Input("SUMMON", "", "", text, "TENFOLD", "", "")}
    case Blackjack => i == Input("BLACKJACK", "", "", "", "", "", text)
  }

  /** A wager is taken if and only if the request is one of its game's, its text is up to 19 digits of at least ten
      chips, and the largest payout fits int64; its amounts are then that number of chips, and the text is stored
      without leading zeros. */
  lemma NormalizedExactly(game: Game, input: Input)
    ensures var text := if game == Summon then input.baseWager else if game == Blackjack then input.initialWager
                        else input.wager;
            var draws := if game == Summon && input.mode == "TENFOLD" then 10 else 1;
            var most := if game == Dice then 2 else if game == Blackjack then 17 else 100 * draws;
            var r := Normalize(game, input);
            && (r.Ok? <==>
                  && Asks(game, input, text) && 1 <= |text| <= 19 && AllDigits(text) && 10 <= Value(text)
                  && Value(text) * 500_000 * most <= 0x7FFF_FFFF_FFFF_FFFF)
            && (r.Ok? ==>
                  && r.value.base == Value(text) * 500_000 && r.value.totalStake == Value(text) * 500_000 * draws
                  && r.value.maxPayout == Value(text) * 500_000 * most
                  && Asks(game, r.value.input, Digits(Value(text)))
                  && r.value.input.choice == input.choice && r.value.input.mode == input.mode)
  {
    var text, most := Amount(game, input), MaxMultiple(game, input.mode);
    ShapeAsks(game, input);
    if Shape(game, input) && AllDigits(text) {
      MulBound(Value(text) * UNITS_PER_CHIP, most, MAX_INT64);
      if Value(text) * UNITS_PER_CHIP * most <= MAX_INT64 { ProductFits(Value(text), most); }
    }
  }

  lemma ShapeAsks(game: Game, input: Input)
    ensures Shape(game, input) <==> Asks(game, input, Amount(game, input))
    ensures forall text :: Shape(game, input) ==> Asks(game, WithAmount(game, input, text), text)
  {
  }

  lemma ProductFits(chips: nat, most: nat)
    requires most > 0 && chips * UNITS_PER_CHIP * most <= MAX_INT64
    ensures chips <= MAX_INT64 / UNITS_PER_CHIP
  {
    MulMonotone(chips * UNITS_PER_CHIP, 1, most);
  }

  /** Normalizing is idempotent: the stored input replays to the same terms. */
  lemma NormalizeIdempotent(game: Game, input: Input)
    requires Normalize(game, input).Ok?
    ensures Normalize(game, Normalize(game, input).value.input) == Normalize(game, input)
  {
    var chips := Value(Amount(game, input));
    ValueOfDigits(chips);
    DigitsShortest(Amount(game, input));
  }

  datatype GuardError = InsufficientBalance | BalanceOverflow | CapExceeded

  /** The ledger entries a round may still write. */
  function Spare(game: Game): int { if game == Blackjack then 9 else 2 }

  /** The checks every create makes on the locked wallet before any hidden outcome is read. */
  function Guard(n: Normalized, balance: int, ledgerSeq: int, version: int, spare: int,
                 cap: Option<int>): Option<GuardError> {
    if balance < n.totalStake then Some(InsufficientBalance)
    else if balance - n.totalStake > MAX_INT64 - n.maxPayout || ledgerSeq > MAX_INT64 - spare
            || version > MAX_INT64 - spare
      then Some(BalanceOverflow)
    else if cap.Some? && n.totalStake > cap.value then Some(CapExceeded)
    else None
  }

  // ------------------------------------------------------------ bot limits

  datatype Policy = Policy(minimum: int, step: int, maximumMode: string)
  datatype Limits = Limits(minimum: int, maximum: int)
  datatype BotFault = LimitsUnavailable

  function PolicyUsable(p: Policy, available: int, cap: Option<int>): bool {
    && p.minimum >= 10 * UNITS_PER_CHIP && p.minimum % UNITS_PER_CHIP == 0
    && p.step == UNITS_PER_CHIP && p.maximumMode == "NONE" && available >= 0
    && (cap.Some? ==> cap.value > 0)
  }

  function WholeChips(units: int): int { units - units % UNITS_PER_CHIP }

  function DiceLimits(p: Policy, available: int, cap: Option<int>): Result<Limits, BotFault> {
    if !PolicyUsable(p, available, cap) then Err(LimitsUnavailable)
    else
      var maximum := Min(Min(available, MAX_INT64 / 2), MAX_INT64 - available);
      Ok(Limits(p.minimum, WholeChips(if cap.Some? then Min(maximum, cap.value) else maximum)))
  }

  function ScratchLimits(p: Policy, available: int, cap: Option<int>): Result<Limits, BotFault> {
    if !PolicyUsable(p, available, cap) then Err(LimitsUnavailable)
    else
      var maximum := Min(Min(available, MAX_INT64 / 100), (MAX_INT64 - available) / 99);
      Ok(Limits(p.minimum, WholeChips(if cap.Some? then Min(maximum, cap.value) else maximum)))
  }

  function SummonLimits(p: Policy, available: int, cap: Option<int>, n: nat): Result<Limits, BotFault> {
    if (n != 1 && n != 10) || !PolicyUsable(p, available, cap) then Err(LimitsUnavailable)
    else
      var maximum := Min(Min(available / n, MAX_INT64 / (100 * n)), (MAX_INT64 - available) / (99 * n));
      Ok(Limits(p.minimum, WholeChips(if cap.Some? then Min(maximum, cap.value / n) else maximum)))
  }

  function BlackjackLimits(p: Policy, available: int, cap: Option<int>): Result<Limits, BotFault> {
    if !PolicyUsable(p, available, cap) then Err(LimitsUnavailable)
    else
      var maximum := Min(Min(available, MAX_INT64 / 17), (MAX_INT64 - available) / 16);
      Ok(Limits(p.minimum, WholeChips(if cap.Some? then Min(maximum, cap.value) else maximum)))
  }

  function LimitsFor(game: Game, mode: string, p: Policy, available: int, cap: Option<int>): Result<Limits, BotFault> {
    match game
    case Dice => DiceLimits(p, available, cap)
    case Scratch => ScratchLimits(p, available, cap)
    case Summon => SummonLimits(p, available, cap, Draws(game, mode))
    case Blackjack => BlackjackLimits(p, available, cap)
  }

  /** The input the bot submits for a wager of `chips` whole chips. */
  function BotInput(game: Game, choice: string, mode: string, chips: nat): Input {
    var text := Digits(chips);
    match game
    case Dice => Input("DICE", text, choice, "", "", "", "")
    case Scratch => Input("SCRATCH", text, "", "", "", "", "")
    case Summon => Input("SUMMON", "", "", text, mode, "", "")
    case Blackjack => Input("BLACKJACK", "", "", "", "", "", text)
  }

  /** The engine takes the wager: it normalizes, and the pre-draw guard lets it through. */
  predicate EngineAccepts(game: Game, input: Input, balance: int, ledgerSeq: int, version: int, cap: Option<int>) {
    var n := Normalize(game, input);
    n.Ok? && Guard(n.value, balance, ledgerSeq, version, Spare(game), cap) == None
  }

  /** The guard, restated as a single bound on the base wager. */
  lemma GuardAsBound(base: nat, d: nat, m: nat, balance: nat, cap: Option<int>)
    requires 0 < d < m && balance <= MAX_INT64 && (cap.Some? ==> cap.value > 0)
    ensures (&& base * m <= MAX_INT64 && base * d <= balance && balance - base * d <= MAX_INT64 - base * m
             && (cap.Some? ==> base * d <= cap.value))
            <==>
            && base <= Min(Min(balance / d, MAX_INT64 / m), (MAX_INT64 - balance) / (m - d))
            && (cap.Some? ==> base <= cap.value / d)
  {
    MulBound(base, m, MAX_INT64);
    MulBound(base, d, balance);
    MulBound(base, m - d, MAX_INT64 - balance);
    assert base * (m - d) == base * m - base * d;
    if cap.Some? { MulBound(base, d, cap.value); }
  }

  lemma WholeChipsLargest(chips: nat, bound: nat)
    ensures chips * UNITS_PER_CHIP <= bound <==> chips * UNITS_PER_CHIP <= WholeChips(bound)
  {
    MulBound(chips, UNITS_PER_CHIP, bound);
    MulBound(chips, UNITS_PER_CHIP, WholeChips(bound));
    assert WholeChips(bound) == bound / UNITS_PER_CHIP * UNITS_PER_CHIP;
  }

  lemma DigitsFit(chips: nat)
    requires chips <= MAX_INT64 / UNITS_PER_CHIP
    ensures |Digits(chips)| <= 19 && Value(Digits(chips)) == chips
  {
    ValueOfDigits(chips);
    assert Pow10(4) == 10_000;
    assert Pow10(8) == 100_000_000;
    assert Pow10(12) == 1_000_000_000_000;
    assert Pow10(14) == 100_000_000_000_000;
    DigitsBound(chips, 14);
  }

  lemma ChipsFitExactly(chips: nat, m: nat)
    requires m > 0
    ensures ChipsFit(chips, m) <==> chips >= 10 && chips * UNITS_PER_CHIP * m <= MAX_INT64
  {
    var base := chips * UNITS_PER_CHIP;
    MulBound(base, m, MAX_INT64);
    MulBound(chips, UNITS_PER_CHIP, MAX_INT64);
    MulMonotone(base, 1, m);
  }

  /** Normalization of a bot input comes down to the size of the wager. */
  lemma BotInputNormalizes(game: Game, choice: string, mode: string, chips: nat)
    requires game == Dice ==> choice == "BIG" || choice == "SMALL"
    requires game == Summon ==> mode == "SINGLE" || mode == "TENFOLD"
    ensures var base, m := chips * UNITS_PER_CHIP, MaxMultiple(game, mode);
            var n := Normalize(game, BotInput(game, choice, mode, chips));
            && (n.Ok? <==> chips >= 10 && base * m <= MAX_INT64)
            && (n.Ok? ==>
                  && n.value.base == base && n.value.totalStake == base * Draws(game, mode)
                  && n.value.maxPayout == base * m)
  {
    var input := BotInput(game, choice, mode, chips);
    BotInputShaped(game, choice, mode, chips);
    DigitsNormalize(game, input, chips);
    ChipsFitExactly(chips, MaxMultiple(game, mode));
  }

  lemma BotInputShaped(game: Game, choice: string, mode: string, chips: nat)
    requires game == Dice ==> choice == "BIG" || choice == "SMALL"
    requires game == Summon ==> mode == "SINGLE" || mode == "TENFOLD"
    ensures var input := BotInput(game, choice, mode, chips);
            && Shape(game, input) && Amount(game, input) == Digits(chips)
            && MaxMultiple(game, input.mode) == MaxMultiple(game, mode)
            && Draws(game, input.mode) == Draws(game, mode)
  {
  }

  lemma DigitsNormalize(game: Game, input: Input, chips: nat)
    requires Shape(game, input) && Amount(game, input) == Digits(chips)
    ensures var base, m, n := chips * UNITS_PER_CHIP, MaxMultiple(game, input.mode), Normalize(game, input);
            && (n.Ok? <==> ChipsFit(chips, m))
            && (n.Ok? ==>
                  && n.value.base == base && n.value.totalStake == base * Draws(game, input.mode)
                  && n.value.maxPayout == base * m)
  {
    ValueOfDigits(chips);
    if ChipsFit(chips, MaxMultiple(game, input.mode)) { DigitsFit(chips); }
  }

  lemma EngineAcceptsExactly(game: Game, choice: string, mode: string, balance: nat, ledgerSeq: int, version: int,
                             cap: Option<int>, chips: nat)
    requires balance <= MAX_INT64 && (cap.Some? ==> cap.value > 0)
    requires game == Dice ==> choice == "BIG" || choice == "SMALL"
    requires game == Summon ==> mode == "SINGLE" || mode == "TENFOLD"
    ensures var base, d, m := chips * UNITS_PER_CHIP, Draws(game, mode), MaxMultiple(game, mode);
            EngineAccepts(game, BotInput(game, choice, mode, chips), balance, ledgerSeq, version, cap) <==>
              && ledgerSeq <= MAX_INT64 - Spare(game) && version <= MAX_INT64 - Spare(game)
              && chips >= 10 && base * m <= MAX_INT64 && base * d <= balance
              && balance - base * d <= MAX_INT64 - base * m
              && (cap.Some? ==> base * d <= cap.value)
  {
    BotInputNormalizes(game, choice, mode, chips);
  }

  /** The four limit formulas are one. */
  lemma LimitsForm(game: Game, mode: string, p: Policy, balance: nat, cap: Option<int>)
    requires balance <= MAX_INT64 && PolicyUsable(p, balance, cap)
    ensures LimitsFor(game, mode, p, balance, cap) == Ok(Limits(p.minimum,
        WholeChips(WagerBound(Draws(game, mode), MaxMultiple(game, mode), balance, cap))))
  {
    match game {
      case Dice => DiceForm(p, balance, cap);
      case Scratch => ScratchForm(p, balance, cap);
      case Summon => SummonForm(p, balance, cap, Draws(game, mode));
      case Blackjack => BlackjackForm(p, balance, cap);
    }
  }

  lemma DiceForm(p: Policy, balance: nat, cap: Option<int>)
    requires balance <= MAX_INT64 && PolicyUsable(p, balance, cap)
    ensures DiceLimits(p, balance, cap) == Ok(Limits(p.minimum, WholeChips(WagerBound(1, 2, balance, cap))))
  {
  }

  lemma ScratchForm(p: Policy, balance: nat, cap: Option<int>)
    requires balance <= MAX_INT64 && PolicyUsable(p, balance, cap)
    ensures ScratchLimits(p, balance, cap) == Ok(Limits(p.minimum, WholeChips(WagerBound(1, 100, balance, cap))))
  {
  }

  lemma BlackjackForm(p: Policy, balance: nat, cap: Option<int>)
    requires balance <= MAX_INT64 && PolicyUsable(p, balance, cap)
    ensures BlackjackLimits(p, balance, cap) == Ok(Limits(p.minimum, WholeChips(WagerBound(1, 17, balance, cap))))
  {
  }

  lemma SummonForm(p: Policy, balance: nat, cap: Option<int>, d: nat)
    requires balance <= MAX_INT64 && PolicyUsable(p, balance, cap) && (d == 1 || d == 10)
    ensures SummonLimits(p, balance, cap, d) == Ok(Limits(p.minimum, WholeChips(WagerBound(d, 100 * d, balance, cap))))
  {
    assert 100 * d - d == 99 * d;
  }

  /** The previewed maximum is exactly the largest whole-chip wager the engine accepts, as long as the wallet has
      sequence numbers to spare; without them no wager is accepted. */
  lemma LimitExact(game: Game, choice: string, mode: string, p: Policy, balance: nat, ledgerSeq: int, version: int,
                   cap: Option<int>, chips: nat)
    requires balance <= MAX_INT64 && PolicyUsable(p, balance, cap)
    requires game == Dice ==> choice == "BIG" || choice == "SMALL"
    requires game == Summon ==> mode == "SINGLE" || mode == "TENFOLD"
    ensures LimitsFor(game, mode, p, balance, cap).Ok?
    ensures var maximum := LimitsFor(game, mode, p, balance, cap).value.maximum;
            && maximum % UNITS_PER_CHIP == 0 && maximum >= 0
            && (EngineAccepts(game, BotInput(game, choice, mode, chips), balance, ledgerSeq, version, cap) <==>
                  && ledgerSeq <= MAX_INT64 - Spare(game) && version <= MAX_INT64 - Spare(game)
                  && chips >= 10 && chips * UNITS_PER_CHIP <= maximum)
  {
    EngineAcceptsExactly(game, choice, mode, balance, ledgerSeq, version, cap, chips);
    WagerBoundExact(Draws(game, mode), MaxMultiple(game, mode), balance, cap, chips);
    LimitsForm(game, mode, p, balance, cap);
  }

  function WagerBound(d: nat, m: nat, balance: int, cap: Option<int>): int
    requires 0 < d < m
  {
    var bound := Min(Min(balance / d, MAX_INT64 / m), (MAX_INT64 - balance) / (m - d));
    if cap.Some? then Min(bound, cap.value / d) else bound
  }

  lemma WagerBoundExact(d: nat, m: nat, balance: nat, cap: Option<int>, chips: nat)
    requires 0 < d < m && balance <= MAX_INT64 && (cap.Some? ==> cap.value > 0)
    ensures var base := chips * UNITS_PER_CHIP;
            (&& base * m <= MAX_INT64 && base * d <= balance && balance - base * d <= MAX_INT64 - base * m
             && (cap.Some? ==> base * d <= cap.value))
            <==> base <= WholeChips(WagerBound(d, m, balance, cap))
    ensures WholeChips(WagerBound(d, m, balance, cap)) >= 0
    ensures WholeChips(WagerBound(d, m, balance, cap)) % UNITS_PER_CHIP == 0
  {
    GuardAsBound(chips * UNITS_PER_CHIP, d, m, balance, cap);
    WagerBoundNonNegative(d, m, balance, cap);
    WholeChipsLargest(chips, WagerBound(d, m, balance, cap));
  }

  lemma WagerBoundNonNegative(d: nat, m: nat, balance: nat, cap: Option<int>)
    requires 0 < d < m && balance <= MAX_INT64 && (cap.Some? ==> cap.value > 0)
    ensures WagerBound(d, m, balance, cap) >= 0
  {
    QuotientNonNegative(balance, d);
    QuotientNonNegative(MAX_INT64, m);
    QuotientNonNegative(MAX_INT64 - balance, m - d);
    if cap.Some? { QuotientNonNegative(cap.value, d); }
  }

  lemma QuotientNonNegative(x: nat, d: nat)
    requires d > 0
    ensures x / d >= 0
  {
  }
}
