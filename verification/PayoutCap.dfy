/** Profit clipping: internal/platform/economy_policy.go, used by internal/games/economy.go. */
module PayoutCap {
  import opened Numbers
  import opened Wrappers

  datatype CapError = InvalidMutation | Overflow
  datatype Settlement = Settlement(credited: int, withheld: int, totalAfter: int)

  function CapPayout(assetCap: int, total: int, stake: int, gross: int): Result<Settlement, CapError> {
    if total < 0 || stake < 0 || stake > total || gross < 0 || assetCap <= 0 then Err(InvalidMutation)
    else
      var principal := Min(stake, gross);
      var base := total - stake + principal;
      var profit := Min(gross - principal, Max(assetCap - base, 0));
      if base > MAX_INT64 - profit || principal > MAX_INT64 - profit then Err(Overflow)
      else Ok(Settlement(principal + profit, gross - principal - profit, base + profit))
  }

  /** The clip refuses no observed round, never touches returned principal, and clips no more than the cap demands. */
  lemma CapNeverRefuses(assetCap: int, total: int, stake: int, gross: int)
    requires 0 <= stake <= total <= MAX_INT64 && 0 <= gross && 0 < assetCap <= MAX_INT64
    ensures CapPayout(assetCap, total, stake, gross).Ok?
    ensures var c := CapPayout(assetCap, total, stake, gross).value;
            && 0 <= c.withheld <= Max(gross - stake, 0)
            && c.credited == gross - c.withheld >= Min(stake, gross)
            && c.totalAfter == total - stake + c.credited <= Max(assetCap, total)
            && (c.withheld > 0 ==> c.totalAfter == Max(assetCap, total))
  {
  }
}
