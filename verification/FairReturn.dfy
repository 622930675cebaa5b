/** The blackjack fair return: internal/games/blackjack_service.go and internal/games/blackjack_store.go. */
module FairReturn {
  import opened Numbers
  import opened Wrappers

  const NUMERATOR: nat := 37_079
  const DENOMINATOR: nat := 10_000_000

  /** The exact product rounded down, or up when the draw falls below the fraction. */
  function Rounded(wager: nat, draw: nat): nat {
    wager * NUMERATOR / DENOMINATOR + (if draw < wager * NUMERATOR % DENOMINATOR then 1 else 0)
  }

  function Bonus(fairRules: bool, wager: nat, draw: nat): nat {
    if fairRules then Rounded(wager, draw) else 0
  }

  /** Splitting off the quotient first avoids the large product and changes nothing. */
  lemma SplitProduct(wager: nat)
    ensures var scaled := wager % DENOMINATOR * NUMERATOR;
            && wager * NUMERATOR / DENOMINATOR == wager / DENOMINATOR * NUMERATOR + scaled / DENOMINATOR
            && wager * NUMERATOR % DENOMINATOR == scaled % DENOMINATOR
  {
    var q, r := wager / DENOMINATOR, wager % DENOMINATOR;
    assert wager * NUMERATOR == q * NUMERATOR * DENOMINATOR + r * NUMERATOR;
  }

  /** The code, in wrap-checked int64 arithmetic: no intermediate overflows for any wager. */
  method BlackjackFairReturn(fairRules: bool, wager: int64, draw: nat) returns (bonus: int64)
    requires 0 <= wager && draw < DENOMINATOR
    ensures bonus as int == Bonus(fairRules, wager as int, draw)
  {
    if !fairRules {
      return 0;
    }
    SplitProduct(wager as int);
    bonus := (wager / 10_000_000) * 37_079;
    var scaledRemainder := (wager % 10_000_000) * 37_079;
    bonus := bonus + scaledRemainder / 10_000_000;
    var fraction := scaledRemainder % 10_000_000;
    if fraction == 0 {
      return bonus;
    }
    if draw < fraction as int {
      bonus := bonus + 1;
    }
  }

  /** The return over the first n draws. */
  function DrawSum(wager: nat, n: nat): nat {
    if n == 0 then 0 else DrawSum(wager, n - 1) + Rounded(wager, n - 1)
  }

  lemma {:induction false} DrawSumExact(wager: nat, n: nat)
    ensures DrawSum(wager, n) == n * (wager * NUMERATOR / DENOMINATOR) + Min(n, wager * NUMERATOR % DENOMINATOR)
  {
    if n > 0 {
      DrawSumExact(wager, n - 1);
      var f := wager * NUMERATOR / DENOMINATOR;
      assert (n - 1) * f + f == n * f;
    }
  }

  /** The rounding is unbiased: over all equally likely draws it pays exactly wager times the rate. */
  lemma Unbiased(wager: nat)
    ensures DrawSum(wager, DENOMINATOR) == wager * NUMERATOR
  {
    DrawSumExact(wager, DENOMINATOR);
  }

  /** The return never exceeds the wager, the headroom reserved for it. */
  lemma BonusBounded(fairRules: bool, wager: nat, draw: nat)
    ensures Bonus(fairRules, wager, draw) <= wager
  {
  }

  // -------------------------------------------------- settlement and recovery

  datatype Class = Loss | BreakEven | Win

  function ClassOf(net: int): Class {
    if net < 0 then Loss else if net == 0 then BreakEven else Win
  }

  datatype Settlement = Settlement(settled: bool, payout: int, net: int, fair: int, outcome: Class)

  datatype Fault = NeedsReview

  function AddFairReturn(s: Settlement, bonus: int): Result<Settlement, Fault> {
    if !s.settled || bonus < 0 || s.fair != 0 || s.payout > MAX_INT64 - bonus then Err(NeedsReview)
    else Ok(Settlement(true, s.payout + bonus, s.net + bonus, bonus, ClassOf(s.net + bonus)))
  }

  function Strip(s: Settlement): Settlement {
    Settlement(s.settled, s.payout - s.fair, s.net - s.fair, 0, ClassOf(s.net - s.fair))
  }

  /** Recovery of a settled row: strip, replay-verify, compare, add back. */
  method RecoverSettled(row: Settlement, verified: Settlement -> bool, expected: nat)
    returns (r: Result<Settlement, Fault>)
    requires row.settled
    ensures r == Recovered(row, verified, expected)
  {
    var state := row;
    var stored := state.fair;
    if stored < 0 || stored > state.payout {
      return Err(NeedsReview);
    }
    state := state.(fair := 0, payout := state.payout - stored, net := state.net - stored);
    state := state.(outcome := ClassOf(state.net));
    if !verified(state) {
      return Err(NeedsReview);
    }
    if expected != stored || row.payout != state.payout + expected || row.net != state.net + expected {
      return Err(NeedsReview);
    }
    r := AddFairReturn(state, expected);
  }

  /** What recovery answers: the stored row itself, reclassified, or a review. */
  function Recovered(row: Settlement, verified: Settlement -> bool, expected: nat): Result<Settlement, Fault> {
    if 0 <= row.fair <= row.payout <= MAX_INT64 && row.fair == expected && verified(Strip(row))
    then Ok(row.(outcome := ClassOf(row.net)))
    else Err(NeedsReview)
  }

  /** What settlement stored is what recovery returns. */
  lemma SettleThenRecover(base: Settlement, verified: Settlement -> bool, bonus: nat)
    requires verified(base) && base.settled && base.fair == 0 && base.outcome == ClassOf(base.net)
    requires 0 <= base.payout <= MAX_INT64 - bonus
    ensures AddFairReturn(base, bonus).Ok?
    ensures Recovered(AddFairReturn(base, bonus).value, verified, bonus) == AddFairReturn(base, bonus)
  {
    var stored := AddFairReturn(base, bonus).value;
    assert Strip(stored) == base;
  }
}
