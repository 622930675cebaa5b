/** Each game transaction keeps the invariant and the chips, and its refusals do not depend on the hidden outcome. */
module GameTransactions {
  import opened Numbers
  import opened Wrappers
  import opened Wagers
  import opened FastGames
  import opened Outcomes
  import opened GameStore
  import opened GameInvariant
  import opened GameUpdates
  import FairReturn
  import PayoutCap

  /** An economic policy as its own validation admits it. */
  predicate EconomyOk(env: Env) {
    env.economy.Some? ==> 0 < env.economy.value.singleMax <= MAX_INT64 && 0 < env.economy.value.assetCap <= MAX_INT64
  }

  // ---------------------------------------------------------- small facts

  lemma ApplyFacts(w: Wallet, delta: int)
    requires WalletOk(w) && Apply(w, delta).Ok?
    ensures WalletOk(Apply(w, delta).value) && Apply(w, delta).value.balance == w.balance + delta
    ensures Apply(w, delta).value.ledgerSeq == w.ledgerSeq + 1 && Apply(w, delta).value.version == w.version + 1
  {
  }

  lemma CreditFacts(w: Wallet, amount: int)
    requires WalletOk(w) && amount >= 0 && Credit(w, amount).Ok?
    ensures WalletOk(Credit(w, amount).value) && Credit(w, amount).value.balance == w.balance + amount
  {
  }

  lemma WithheldBounds(env: Env, total: int, stake: int, gross: int)
    requires gross >= 0 && Withheld(env, total, stake, gross).Ok?
    ensures 0 <= Withheld(env, total, stake, gross).value <= Max(gross - stake, 0)
    ensures Withheld(env, total, stake, gross).value <= gross
  {
  }

  lemma WithheldOk(env: Env, total: int, stake: int, gross: int)
    requires EconomyOk(env) && gross >= 0 && (env.economy.Some? ==> 0 <= stake <= total <= MAX_INT64)
    ensures Withheld(env, total, stake, gross).Ok?
  {
    if env.economy.Some? { PayoutCap.CapNeverRefuses(env.economy.value.assetCap, total, stake, gross); }
  }

  lemma OpenExtends(db: Db, w: Wallet, r: Round)
    requires CommitmentsOk(db) && LinksOk(db) && MayOpen(db, w, r)
    ensures Extends(db, OpenRound(db, w, r))
  {
    OpenedIdIsNew(db, w, r);
  }

  lemma CloseExtends(db: Db, w: Wallet, id: Id, payout: int, withheld: int)
    requires LinksOk(db) && SupplyExact(db) && MayClose(db, w, id, payout, withheld)
    ensures Extends(db, CloseRound(db, w, id, payout, withheld))
  {
    assert RoundMatches(db, id, db.rounds[id]);
    CloseGrows(db, w, id, payout, withheld);
    CloseAdvances(db, w, id, payout, withheld);
    CloseRowsStay(db, w, id, payout, withheld);
  }

  lemma CloseGrows(db: Db, w: Wallet, id: Id, payout: int, withheld: int)
    requires MayClose(db, w, id, payout, withheld) && db.rounds[id].commitment in db.commitments
    ensures RoundsGrow(db, CloseRound(db, w, id, payout, withheld))
  {
  }

  lemma CloseAdvances(db: Db, w: Wallet, id: Id, payout: int, withheld: int)
    requires MayClose(db, w, id, payout, withheld) && db.rounds[id].commitment in db.commitments
    requires db.commitments[db.rounds[id].commitment].state == Consumed
    ensures CommitmentsAdvance(db, CloseRound(db, w, id, payout, withheld))
  {
  }

  lemma CloseRowsStay(db: Db, w: Wallet, id: Id, payout: int, withheld: int)
    requires MayClose(db, w, id, payout, withheld) && db.rounds[id].commitment in db.commitments && id !in db.supply
    ensures RowsStay(db, CloseRound(db, w, id, payout, withheld))
  {
  }

  lemma RaiseExtends(db: Db, w: Wallet, id: Id, added: int, due: int)
    requires MayRaise(db, w, id, added)
    ensures Extends(db, RaiseStake(db, w, id, added, due))
  {
  }

  // ------------------------------------------------------------- preflight

  ghost predicate Fits(db: Db, user: User, game: Game, key: string, cid: Id, input: Input, env: Env, plan: Plan) {
    && Normalize(game, input) == Ok(plan.n)
    && !Blocked(db, user, game) && RoundByKey(db, user, game, key).None?
    && HoldsAvailable(db, cid, user, game)
    && user in db.wallets && plan.before == db.wallets[user]
    && plan.n.totalStake <= plan.before.balance <= MAX_INT64 - plan.n.maxPayout + plan.n.totalStake
    && plan.before.ledgerSeq <= MAX_INT64 - Spare(game) && plan.before.version <= MAX_INT64 - Spare(game)
    && (env.economy.Some? ==> TotalAssets(db, user, plan.before.balance, env) == Ok(plan.total))
  }

  lemma PreflightFits(db: Db, user: User, game: Game, key: string, cid: Id, input: Input, env: Env)
    requires AtRest(db, {}) && Preflight(db, user, game, key, cid, input, env).Ok?
    requires Preflight(db, user, game, key, cid, input, env).value.Fresh?
    ensures Fits(db, user, game, key, cid, input, env, Preflight(db, user, game, key, cid, input, env).value.plan)
  {
    if game == Dice || game == Summon {
      forall id ensures !BlocksGame(db, id, user, game) {}
    }
  }

  /** A checked create can debit its stake and open its round. */
  lemma FitsOpens(db: Db, user: User, game: Game, key: string, cid: Id, input: Input, env: Env, plan: Plan, due: int,
                  rows: Rows)
    requires MoneyOk(db) && Fits(db, user, game, key, cid, input, env, plan) && Readable(game, rows)
    ensures Apply(plan.before, 0 - plan.n.totalStake).Ok?
    ensures MayOpen(db, Apply(plan.before, 0 - plan.n.totalStake).value,
                    NewRound(db.commitments[cid], cid, key, plan.n, due, rows))
  {
    NormalizedFits(game, input);
    ApplyFacts(plan.before, 0 - plan.n.totalStake);
  }

  lemma FitsAfterPreference(db: Db, user: User, game: Game, key: string, cid: Id, input: Input, env: Env, plan: Plan,
                            p: Preference)
    requires Fits(db, user, game, key, cid, input, env, plan)
    ensures Fits(WithPreference(db, user, game, p), user, game, key, cid, input, env, plan)
  {
    var db' := WithPreference(db, user, game, p);
    forall id ensures BlocksGame(db', id, user, game) == BlocksGame(db, id, user, game) {}
    forall id ensures HasKey(db', id, user, game, key) == HasKey(db, id, user, game, key) {}
  }

  // ------------------------------------------------------------ fast games

  lemma FastPayoutBounded(game: Game, input: Input, config: Config, source: Source)
    requires Normalize(game, input).Ok? && game != Blackjack && ValidConfig(game, config)
    ensures var n := Normalize(game, input).value;
            && Multiple(game, n.input, config, source).Some?
            && 0 <= n.base * Multiple(game, n.input, config, source).value <= n.maxPayout
  {
    var n := Normalize(game, input).value;
    NormalizedFits(game, input);
    MultipleBounded(game, n.input, config, source);
    assert n.input.mode == input.mode;
    ProductBounded(n.base, Multiple(game, n.input, config, source).value, MaxMultiple(game, input.mode));
  }

  lemma ProductBounded(base: nat, multiple: int, max: nat)
    requires 0 <= multiple <= max
    ensures 0 <= base * multiple <= base * max
  {
    MulMonotone(base, multiple, max);
  }

  /** The terms on which a settlement closes its round. */
  ghost predicate FastTerms(plan: Plan, debited: Wallet, paid: Wallet, payout: int, withheld: int) {
    && WalletOk(paid) && paid.balance == debited.balance + payout - withheld
    && 0 <= payout <= MAX_INT64 && 0 <= withheld <= Max(payout - plan.n.totalStake, 0)
  }

  /** At most the profit is withheld, and the rest reaches the wallet. */
  ghost predicate PaymentOk(w: Wallet, stake: int, p: Payment) {
    && WalletOk(p.paid) && p.paid.balance == w.balance + p.payout - p.withheld
    && 0 <= p.withheld <= Max(p.payout - stake, 0)
  }

  lemma PayFacts(w: Wallet, env: Env, total: int, stake: int, payout: int)
    requires WalletOk(w) && payout >= 0 && Pay(w, env, total, stake, payout).Ok?
    ensures var p := Pay(w, env, total, stake, payout).value; p.payout == payout && PaymentOk(w, stake, p)
  {
    WithheldBounds(env, total, stake, payout);
    CreditFacts(w, payout - Withheld(env, total, stake, payout).value);
  }

  /** An outcome that can be stored, read again and paid within the reserved bound. */
  ghost predicate Payable(game: Game, n: Normalized, o: Outcome) {
    ThreeDice(o.typed) && Readable(game, Stored(o)) && 0 <= n.base * o.payoff.payout <= n.maxPayout
  }

  /** Whatever the seed draws is payable. */
  lemma OutcomePayable(game: Game, input: Input, config: Config, source: Source)
    requires Normalize(game, input).Ok? && game != Blackjack && ValidConfig(game, config)
    ensures var n := Normalize(game, input).value; var o := Derived(game, n.input, config, source);
            && o.Some? && Payable(game, n, o.value)
            && o.value.payoff.payout == Multiple(game, n.input, config, source).value >= 0
  {
    var n := Normalize(game, input).value;
    FastPayoutBounded(game, input, config, source);
    MultipleBounded(game, n.input, config, source);
    DerivedPays(game, n.input, config, source);
    ReadBackExactly(game, n.input, config, source);
  }

  lemma SettleTerms(db: Db, cid: Id, key: string, input: Input, plan: Plan, env: Env, o: Outcome)
    returns (debited: Wallet, paid: Wallet, payout: int, withheld: int)
    requires cid in db.commitments && Normalize(db.commitments[cid].game, input) == Ok(plan.n) && WalletOk(plan.before)
    requires Payable(db.commitments[cid].game, plan.n, o) && SettleAs(db, cid, key, plan, env, Some(o)).Ok?
    ensures Apply(plan.before, 0 - plan.n.totalStake) == Ok(debited) && FastTerms(plan, debited, paid, payout, withheld)
    ensures SettleAs(db, cid, key, plan, env, Some(o)).value.0
         == CloseRound(OpenRound(db, debited, NewRound(db.commitments[cid], cid, key, plan.n, 0, Stored(o))), paid,
                       db.commitments[cid].roundId, payout, withheld)
  {
    debited := Apply(plan.before, 0 - plan.n.totalStake).value;
    ApplyFacts(plan.before, 0 - plan.n.totalStake);
    NormalizedFits(db.commitments[cid].game, input);
    payout := plan.n.base * o.payoff.payout;
    PayFacts(debited, env, plan.total, plan.n.totalStake, payout);
    var p := Pay(debited, env, plan.total, plan.n.totalStake, payout).value;
    withheld, paid := p.withheld, p.paid;
  }

  lemma SettleSound(db: Db, user: User, game: Game, key: string, cid: Id, input: Input, env: Env, plan: Plan,
                    o: Outcome)
    requires Inv(db) && Fits(db, user, game, key, cid, input, env, plan) && game != Blackjack
    requires Payable(game, plan.n, o)
    requires SettleAs(db, cid, key, plan, env, Some(o)).Ok?
    ensures Sound(db, SettleAs(db, cid, key, plan, env, Some(o)).value.0)
  {
    FitsOpens(db, user, game, key, cid, input, env, plan, 0, Stored(o));
    var debited, paid, payout, withheld := SettleTerms(db, cid, key, input, plan, env, o);
    OpenCloseSound(db, debited, NewRound(db.commitments[cid], cid, key, plan.n, 0, Stored(o)), paid, payout, withheld);
  }

  lemma SettleFastSound(db: Db, user: User, game: Game, key: string, cid: Id, input: Input, env: Env, plan: Plan,
                        source: Source)
    requires Inv(db) && Fits(db, user, game, key, cid, input, env, plan) && game != Blackjack
    requires ValidConfig(game, env.config)
    requires SettleFast(db, cid, key, plan, env, source).Ok?
    ensures Sound(db, SettleFast(db, cid, key, plan, env, source).value.0)
  {
    OutcomePayable(game, input, env.config, source);
    SettleSound(db, user, game, key, cid, input, env, plan, Derived(game, plan.n.input, env.config, source).value);
  }

  ghost predicate MayFinish(db: Db, id: Id) {
    && id in db.rounds && db.rounds[id].phase == PlayerTurn
    && db.rounds[id].commitment in db.commitments && db.rounds[id].user in db.wallets
  }

  /** A round just opened: everything holds but its own auto-resolve job. */
  ghost predicate Started(db: Db, db': Db, id: Id) {
    && Core(db') && AtRest(db', {id}) && Chips(db') == Chips(db) && Extends(db, db')
    && MayFinish(db', id) && Live(db'.rounds[id])
  }

  lemma OpenStarts(db: Db, w: Wallet, r: Round)
    requires Inv(db) && MayOpen(db, w, r)
    ensures Started(db, OpenRound(db, w, r), db.commitments[r.commitment].roundId)
  {
    OpenKeeps(db, w, r);
    OpenExtends(db, w, r);
  }

  lemma CloseStarted(db: Db, started: Db, id: Id, w: Wallet, payout: int, withheld: int)
    requires Started(db, started, id) && MayClose(started, w, id, payout, withheld)
    ensures Sound(db, CloseRound(started, w, id, payout, withheld))
  {
    CloseKeeps(started, w, id, payout, withheld);
    CloseExtends(started, w, id, payout, withheld);
    ExtendsTwice(db, started, CloseRound(started, w, id, payout, withheld));
  }

  /** Opening and closing in one transaction. */
  lemma OpenCloseSound(db: Db, w: Wallet, r: Round, w': Wallet, payout: int, withheld: int)
    requires Inv(db) && MayOpen(db, w, r)
    requires r.game != Blackjack && r.fair == 0 && 0 <= payout <= MAX_INT64 && 0 <= withheld <= Max(payout - r.stake, 0)
    requires WalletOk(w') && w'.balance == w.balance + payout - withheld
    ensures Sound(db, CloseRound(OpenRound(db, w, r), w', db.commitments[r.commitment].roundId, payout, withheld))
  {
    OpenStarts(db, w, r);
    OpenThenClose(db, w, r, w', payout, withheld);
    CloseStarted(db, OpenRound(db, w, r), db.commitments[r.commitment].roundId, w', payout, withheld);
  }

  lemma OpenThenClose(db: Db, w: Wallet, r: Round, w': Wallet, payout: int, withheld: int)
    requires MayOpen(db, w, r)
    requires r.game != Blackjack && r.fair == 0 && 0 <= payout <= MAX_INT64 && 0 <= withheld <= Max(payout - r.stake, 0)
    requires WalletOk(w') && w'.balance == w.balance + payout - withheld
    ensures MayClose(OpenRound(db, w, r), w', db.commitments[r.commitment].roundId, payout, withheld)
  {
  }

  /** Reading for a player leaves what a read leaves, and every stored round can be read. */
  lemma ReadSound(db: Db, id: Id, env: Env)
    requires Inv(db) && id in db.rounds
    ensures ReadRound(db, id, env).Ok? && Sound(db, ReadRound(db, id, env).value.0)
  {
    AfterReadKeeps(db, id, env);
    ReadForm(db, id, env);
  }

  lemma ReadForm(db: Db, id: Id, env: Env)
    requires id in db.rounds && Readable(db.rounds[id].game, db.rounds[id].rows)
    ensures ReadRound(db, id, env).Ok? && ReadRound(db, id, env).value.0 == AfterRead(db, id, env)
    ensures ReadRound(db, id, env).value.1.id == id
  {
  }

  lemma FreshCreateSound(db: Db, user: User, game: Game, key: string, cid: Id, input: Input, env: Env, plan: Plan,
                         source: Source)
    requires Inv(db) && Fits(db, user, game, key, cid, input, env, plan) && game != Blackjack
    requires ValidConfig(game, env.config) && CreateFresh(db, user, game, key, cid, plan, env, source).Ok?
    ensures Sound(db, CreateFresh(db, user, game, key, cid, plan, env, source).value.0)
  {
    var p := PreferenceOf(db, user, game, env);
    var db1 := WithPreference(db, user, game, p);
    PreferenceKeeps(db, user, game, p);
    FitsAfterPreference(db, user, game, key, cid, input, env, plan, p);
    SettleFastSound(db1, user, game, key, cid, input, env, plan, source);
    SoundTwice(db, db1, SettleFast(db1, cid, key, plan, env, source).value.0);
  }

  lemma CreateFastSound(db: Db, user: User, game: Game, key: string, cid: Id, input: Input, env: Env, source: Source)
    requires Inv(db) && game != Blackjack && ValidConfig(game, env.config)
    ensures CreateFast(db, user, game, key, cid, input, env, source).Ok? ==>
              Sound(db, CreateFast(db, user, game, key, cid, input, env, source).value.0)
  {
    CreateForm(db, user, game, key, cid, input, env, source);
    if CreateFast(db, user, game, key, cid, input, env, source).Ok? {
      var check := Preflight(db, user, game, key, cid, input, env);
      if check.value.Replay? {
        ReadSound(db, check.value.id, env);
      } else {
        PreflightFits(db, user, game, key, cid, input, env);
        FreshCreateSound(db, user, game, key, cid, input, env, check.value.plan, source);
      }
    }
  }

  lemma OpenStakesNonNegative(db: Db, user: User)
    requires WalletsOk(db)
    ensures SumOf(db.rounds, OpenStakeOf(user)) >= 0
    ensures forall id :: id in db.rounds ==> SumOf(db.rounds, OpenStakeOf(user)) >= OpenStakeOf(user)(db.rounds[id])
  {
    SumOfAtLeast(db.rounds, OpenStakeOf(user));
  }

  /** The observed total covers the stake. */
  lemma TotalCoversStake(db: Db, user: User, balance: int, stake: int, env: Env)
    requires WalletsOk(db) && stake <= balance && TotalAssets(db, user, balance, env).Ok?
    ensures stake <= TotalAssets(db, user, balance, env).value <= MAX_INT64
  {
    OpenStakesNonNegative(db, user);
  }

  /** Once the pre-draw guard lets a wager through, no draw can make a later step fail. */
  lemma SettleFastSucceeds(db: Db, user: User, game: Game, key: string, cid: Id, input: Input, env: Env, plan: Plan,
                           source: Source)
    requires MoneyOk(db) && Fits(db, user, game, key, cid, input, env, plan) && game != Blackjack
    requires ValidConfig(game, env.config) && EconomyOk(env)
    ensures SettleFast(db, cid, key, plan, env, source).Ok?
  {
    if env.economy.Some? { TotalCoversStake(db, user, plan.before.balance, plan.n.totalStake, env); }
    OutcomePayable(game, input, env.config, source);
    SettleSucceeds(db, cid, key, plan, env, Derived(game, plan.n.input, env.config, source).value);
  }

  lemma SettleSucceeds(db: Db, cid: Id, key: string, plan: Plan, env: Env, o: Outcome)
    requires cid in db.commitments && EconomyOk(env) && WalletOk(plan.before)
    requires Payable(db.commitments[cid].game, plan.n, o)
    requires plan.n.totalStake <= plan.before.balance <= MAX_INT64 - plan.n.maxPayout + plan.n.totalStake
    requires plan.before.ledgerSeq <= MAX_INT64 - 2 && plan.before.version <= MAX_INT64 - 2
    requires env.economy.Some? ==> plan.n.totalStake <= plan.total <= MAX_INT64
    ensures SettleAs(db, cid, key, plan, env, Some(o)).Ok?
  {
    var payout := plan.n.base * o.payoff.payout;
    WithheldOk(env, plan.total, plan.n.totalStake, payout);
    WithheldBounds(env, plan.total, plan.n.totalStake, payout);
  }

  /** Whether, and how, a fast create is refused is decided before the seed is opened. */
  lemma FastRefusalIgnoresOutcome(db: Db, user: User, game: Game, key: string, cid: Id, input: Input, env: Env,
                                  source: Source)
    requires Inv(db) && game != Blackjack && ValidConfig(game, env.config) && EconomyOk(env)
    ensures var check := Preflight(db, user, game, key, cid, input, env);
            var result := CreateFast(db, user, game, key, cid, input, env, source);
            if check.Err? then result == Err(check.error) else result.Ok?
  {
    var check := Preflight(db, user, game, key, cid, input, env);
    CreateForm(db, user, game, key, cid, input, env, source);
    if check.Ok? {
      if check.value.Replay? {
        ReadSound(db, check.value.id, env);
      } else {
        PreflightFits(db, user, game, key, cid, input, env);
        FreshCreateSucceeds(db, user, game, key, cid, input, env, check.value.plan, source);
      }
    }
  }

  lemma CreateForm(db: Db, user: User, game: Game, key: string, cid: Id, input: Input, env: Env, source: Source)
    ensures var check := Preflight(db, user, game, key, cid, input, env);
            var result := CreateFast(db, user, game, key, cid, input, env, source);
            match check
            case Err(e) => result == Err(e)
            case Ok(Replay(id)) => id in db.rounds && result == ReadRound(db, id, env)
            case Ok(Fresh(plan)) =>
              cid in db.commitments && result == CreateFresh(db, user, game, key, cid, plan, env, source)
  {
  }

  lemma FreshCreateSucceeds(db: Db, user: User, game: Game, key: string, cid: Id, input: Input, env: Env, plan: Plan,
                            source: Source)
    requires Inv(db) && Fits(db, user, game, key, cid, input, env, plan) && game != Blackjack
    requires ValidConfig(game, env.config) && EconomyOk(env)
    ensures CreateFresh(db, user, game, key, cid, plan, env, source).Ok?
  {
    var p := PreferenceOf(db, user, game, env);
    PreferenceKeeps(db, user, game, p);
    FitsAfterPreference(db, user, game, key, cid, input, env, plan, p);
    SettleFastSucceeds(WithPreference(db, user, game, p), user, game, key, cid, input, env, plan, source);
  }

  /** What a settled round tells: the outcome's payout, its clip, and the wallet moved by exactly the net; nobody
      else's. */
  ghost predicate Paid(db: Db, after: Db, id: Id, user: User, stake: int, payout: int) {
    && id in after.rounds && user in db.wallets && user in after.wallets
    && var r := after.rounds[id];
       && r.user == user && r.phase == Settled && r.stake == stake && r.payout == payout
       && after.wallets[user].balance == db.wallets[user].balance + Net(r)
       && (forall u :: u != user ==>
             (u in after.wallets <==> u in db.wallets) && (u in db.wallets ==> after.wallets[u] == db.wallets[u]))
       && r.commitment in after.commitments && after.commitments[r.commitment].state == Revealed
  }

  /** A round opened and closed on these terms tells what its outcome pays. */
  lemma ClosedPays(db: Db, r: Round, debited: Wallet, paid: Wallet, payout: int, withheld: int)
    requires r.commitment in db.commitments && r.user in db.wallets
    requires debited.balance == db.wallets[r.user].balance - r.stake
    requires paid.balance == debited.balance + payout - withheld
    ensures var id := db.commitments[r.commitment].roundId;
            Paid(db, CloseRound(OpenRound(db, debited, r), paid, id, payout, withheld), id, r.user, r.stake, payout)
  {
  }

  lemma SettlePays(db: Db, cid: Id, key: string, input: Input, plan: Plan, env: Env, o: Outcome)
    requires cid in db.commitments && db.commitments[cid].user in db.wallets
    requires Normalize(db.commitments[cid].game, input) == Ok(plan.n)
    requires plan.before == db.wallets[db.commitments[cid].user] && WalletOk(plan.before)
    requires Payable(db.commitments[cid].game, plan.n, o) && SettleAs(db, cid, key, plan, env, Some(o)).Ok?
    ensures var after := SettleAs(db, cid, key, plan, env, Some(o)).value.0; var c := db.commitments[cid];
            && Paid(db, after, c.roundId, c.user, plan.n.totalStake, plan.n.base * o.payoff.payout)
  {
    var debited, paid, payout, withheld := SettleTerms(db, cid, key, input, plan, env, o);
    ApplyFacts(plan.before, 0 - plan.n.totalStake);
    ClosedPays(db, NewRound(db.commitments[cid], cid, key, plan.n, 0, Stored(o)), debited, paid, payout, withheld);
  }

  /** The answer shows the round just stored, with the outcome its rows were written from. */
  ghost predicate Answers(after: Db, shown: Shown, id: Id, key: string, n: Normalized, o: Outcome) {
    && shown.id == id && id in after.rounds && shown == Shown(id, after.rounds[id], Fast(o))
    && after.rounds[id].phase == Settled && after.rounds[id].key == key && after.rounds[id].request == n.input
    && ThreeDice(o.typed) && after.rounds[id].rows == Stored(o)
  }

  lemma SettleAnswers(db: Db, cid: Id, key: string, plan: Plan, env: Env, o: Outcome)
    requires cid in db.commitments && ThreeDice(o.typed) && SettleAs(db, cid, key, plan, env, Some(o)).Ok?
    ensures var (after, shown) := SettleAs(db, cid, key, plan, env, Some(o)).value; var c := db.commitments[cid];
            && Answers(after, shown, c.roundId, key, plan.n, o) && InGame(shown.round, c.user, c.game)
  {
  }

  /** An accepted new create pays and shows exactly what its seed draws: stake out, base times the outcome's multiple
      in, less what the cap withholds. */
  lemma FastPaysOutcome(db: Db, user: User, game: Game, key: string, cid: Id, input: Input, env: Env, source: Source)
    requires Inv(db) && game != Blackjack && ValidConfig(game, env.config)
    requires CreateFast(db, user, game, key, cid, input, env, source).Ok?
    requires Preflight(db, user, game, key, cid, input, env).value.Fresh?
    ensures var (after, shown) := CreateFast(db, user, game, key, cid, input, env, source).value;
            var n := Normalize(game, input).value; var o := Derived(game, n.input, env.config, source);
            && o.Some? && HoldsAvailable(db, cid, user, game) && InGame(shown.round, user, game)
            && Answers(after, shown, db.commitments[cid].roundId, key, n, o.value)
            && Paid(db, after, db.commitments[cid].roundId, user, n.totalStake, n.base * o.value.payoff.payout)
  {
    var plan := Preflight(db, user, game, key, cid, input, env).value.plan;
    PreflightFits(db, user, game, key, cid, input, env);
    OutcomePayable(game, input, env.config, source);
    var db1 := WithPreference(db, user, game, PreferenceOf(db, user, game, env));
    var o := Derived(game, plan.n.input, env.config, source).value;
    SettlePays(db1, cid, key, input, plan, env, o);
    SettleAnswers(db1, cid, key, plan, env, o);
  }

  lemma NoFreeProbe(db: Db, user: User, game: Game, key: string, cid: Id, input: Input, env: Env, source: Source,
                    other: Source)
    requires Inv(db) && game != Blackjack && ValidConfig(game, env.config) && EconomyOk(env)
    ensures var a := CreateFast(db, user, game, key, cid, input, env, source);
            var b := CreateFast(db, user, game, key, cid, input, env, other);
            (a.Ok? <==> b.Ok?) && (a.Err? ==> a.error == b.error)
  {
    FastRefusalIgnoresOutcome(db, user, game, key, cid, input, env, source);
    FastRefusalIgnoresOutcome(db, user, game, key, cid, input, env, other);
  }

  // -------------------------------------------------- blackjack settlement

  lemma FinishTerms(db: Db, id: Id, gross: int, env: Env) returns (paid: Wallet, payout: int, withheld: int)
    requires MayFinish(db, id) && WalletOk(db.wallets[db.rounds[id].user]) && gross >= 0
    requires Finish(db, id, gross, env).Ok?
    ensures payout == gross + BonusOf(db.commitments[db.rounds[id].commitment], db.rounds[id].initial)
    ensures MayClose(Bonused(db, id), paid, id, payout, withheld)
    ensures Finish(db, id, gross, env).value == (CloseRound(Bonused(db, id), paid, id, payout, withheld), id)
  {
    FinalPayFacts(db, id, gross, env);
    var p := FinalPay(db, id, gross, env).value;
    payout, withheld, paid := p.payout, p.withheld, p.paid;
  }

  lemma FinalPayFacts(db: Db, id: Id, gross: int, env: Env)
    requires MayFinish(db, id) && WalletOk(db.wallets[db.rounds[id].user])
    requires gross >= 0 && FinalPay(db, id, gross, env).Ok?
    ensures var r, p := db.rounds[id], FinalPay(db, id, gross, env).value;
            && p.payout == gross + BonusOf(db.commitments[r.commitment], r.initial) <= MAX_INT64
            && PaymentOk(db.wallets[r.user], r.stake, p)
  {
    var r := db.rounds[id];
    var total := if env.economy.None? then 0 else TotalAssets(db, r.user, db.wallets[r.user].balance, env).value;
    PayFacts(db.wallets[r.user], env, total, r.stake, gross + BonusOf(db.commitments[r.commitment], r.initial));
  }

  lemma FinishSound(db: Db, id: Id, gross: int, env: Env)
    requires Core(db) && AtRest(db, {id}) && MayFinish(db, id) && gross >= 0 && Finish(db, id, gross, env).Ok?
    ensures Sound(db, Finish(db, id, gross, env).value.0)
  {
    var paid, payout, withheld := FinishTerms(db, id, gross, env);
    var bonused := Bonused(db, id);
    BonusKeeps(db, id);
    CloseKeeps(bonused, paid, id, payout, withheld);
    CloseExtends(bonused, paid, id, payout, withheld);
    ExtendsTwice(db, bonused, CloseRound(bonused, paid, id, payout, withheld));
  }

  /** The round with its fair return noted, about to be closed. */
  function Bonused(db: Db, id: Id): Db
    requires id in db.rounds && db.rounds[id].commitment in db.commitments
  {
    WithFair(db, id, BonusOf(db.commitments[db.rounds[id].commitment], db.rounds[id].initial))
  }

  lemma BonusMarks(db: Db, id: Id)
    requires MayFinish(db, id)
    ensures MarksOnly(db, Bonused(db, id), id)
    ensures Bonused(db, id) == db.(rounds := db.rounds[id := Bonused(db, id).rounds[id]])
  {
  }

  lemma BonusKeeps(db: Db, id: Id)
    requires Core(db) && AtRest(db, {id}) && MayFinish(db, id)
    ensures var bonused := Bonused(db, id);
            Core(bonused) && AtRest(bonused, {id}) && Chips(bonused) == Chips(db) && Extends(db, bonused)
  {
    BonusMarks(db, id);
    MarksKeepShape(db, Bonused(db, id), id);
    MarksKeepMoney(db, Bonused(db, id), id);
    MarksKeepChips(db, Bonused(db, id), id);
    RoundMarkKeepsRefs(db, id, Bonused(db, id).rounds[id], {id});
  }

  /** With head room for the payout, a settlement fails only when the asset reading does. */
  lemma FinishRefusal(db: Db, id: Id, gross: int, env: Env)
    requires MoneyOk(db) && MayFinish(db, id) && EconomyOk(env) && gross >= 0
    requires var w := db.wallets[db.rounds[id].user];
             w.balance + gross + db.rounds[id].initial <= MAX_INT64 && w.ledgerSeq < MAX_INT64 && w.version < MAX_INT64
    ensures var total := TotalAssets(db, db.rounds[id].user, db.wallets[db.rounds[id].user].balance, env);
            if env.economy.Some? && total.Err? then Finish(db, id, gross, env) == Err(total.error)
            else Finish(db, id, gross, env).Ok?
  {
    var r := db.rounds[id];
    var w := db.wallets[r.user];
    FairReturn.BonusBounded(db.commitments[r.commitment].binding.fairRules, r.initial,
                            db.commitments[r.commitment].draw);
    var payout := gross + BonusOf(db.commitments[r.commitment], r.initial);
    var total := TotalAssets(db, r.user, w.balance, env);
    OpenStakesNonNegative(db, r.user);
    if env.economy.None? || total.Ok? {
      var t := if env.economy.None? then 0 else total.value;
      WithheldOk(env, t, r.stake, payout);
      WithheldBounds(env, t, r.stake, payout);
    }
  }

  // ------------------------------------------------------------------ deal

  lemma FinishStarted(db: Db, started: Db, id: Id, gross: int, env: Env)
    requires Started(db, started, id) && gross >= 0 && Finish(started, id, gross, env).Ok?
    ensures Sound(db, Finish(started, id, gross, env).value.0)
  {
    FinishSound(started, id, gross, env);
    ExtendsTwice(db, started, Finish(started, id, gross, env).value.0);
  }

  lemma WaitStarted(db: Db, started: Db, id: Id, env: Env, due: int)
    requires Started(db, started, id) && started.rounds[id].game == Blackjack
    ensures Sound(db, WithJobs(started, id, env, due))
  {
    WithJobsKeeps(started, id, env, due);
    ExtendsTwice(db, started, WithJobs(started, id, env, due));
  }

  function DealtRound(db: Db, cid: Id, key: string, plan: Plan, deal: Play21): Round
    requires cid in db.commitments
  {
    NewRound(db.commitments[cid], cid, key, plan.n, deal.autoResolveAt, NoRows)
  }

  ghost predicate MayDeal(db: Db, cid: Id, key: string, plan: Plan, deal: Play21) {
    && cid in db.commitments && db.commitments[cid].game == Blackjack
    && Apply(plan.before, 0 - plan.n.totalStake).Ok?
    && MayOpen(db, Apply(plan.before, 0 - plan.n.totalStake).value, DealtRound(db, cid, key, plan, deal))
  }

  lemma DealForm(db: Db, cid: Id, key: string, plan: Plan, env: Env, deal: Play21)
    requires cid in db.commitments && Apply(plan.before, 0 - plan.n.totalStake).Ok?
    requires Deal(db, cid, key, plan, env, deal).Ok?
    ensures var started, id := OpenRound(db, Apply(plan.before, 0 - plan.n.totalStake).value,
                                         DealtRound(db, cid, key, plan, deal)), db.commitments[cid].roundId;
            var after := Deal(db, cid, key, plan, env, deal).value.0;
            && started.rounds[id].game == db.commitments[cid].game
            && (if deal.settled then
                  && MayFinish(started, id) && Finish(started, id, deal.payout, env).Ok?
                  && after == Finish(started, id, deal.payout, env).value.0
                else after == WithJobs(started, id, env, deal.autoResolveAt))
  {
  }

  lemma DealSound(db: Db, cid: Id, key: string, plan: Plan, env: Env, deal: Play21)
    requires Inv(db) && MayDeal(db, cid, key, plan, deal) && (deal.settled ==> deal.payout >= 0)
    requires Deal(db, cid, key, plan, env, deal).Ok?
    ensures Sound(db, Deal(db, cid, key, plan, env, deal).value.0)
  {
    var w, r := Apply(plan.before, 0 - plan.n.totalStake).value, DealtRound(db, cid, key, plan, deal);
    OpenStarts(db, w, r);
    DealForm(db, cid, key, plan, env, deal);
    if deal.settled {
      FinishStarted(db, OpenRound(db, w, r), db.commitments[cid].roundId, deal.payout, env);
    } else {
      WaitStarted(db, OpenRound(db, w, r), db.commitments[cid].roundId, env, deal.autoResolveAt);
    }
  }

  lemma DealCheckForm(db: Db, user: User, key: string, cid: Id, input: Input, env: Env, deal: Play21)
    ensures var check := Preflight(db, user, Blackjack, key, cid, input, env);
            var result := CreateBlackjack(db, user, key, cid, input, env, deal);
            match check
            case Err(e) => result == Err(e)
            case Ok(Replay(id)) => id in db.rounds && result == ReadRound(db, id, env)
            case Ok(Fresh(plan)) => cid in db.commitments && result == DealFresh(db, user, key, cid, plan, env, deal)
  {
  }

  lemma CreateBlackjackSound(db: Db, user: User, key: string, cid: Id, input: Input, env: Env, deal: Play21)
    requires Inv(db) && (deal.settled ==> deal.payout >= 0)
    ensures CreateBlackjack(db, user, key, cid, input, env, deal).Ok? ==>
              Sound(db, CreateBlackjack(db, user, key, cid, input, env, deal).value.0)
  {
    DealCheckForm(db, user, key, cid, input, env, deal);
    if CreateBlackjack(db, user, key, cid, input, env, deal).Ok? {
      var check := Preflight(db, user, Blackjack, key, cid, input, env);
      if check.value.Replay? {
        ReadSound(db, check.value.id, env);
      } else {
        PreflightFits(db, user, Blackjack, key, cid, input, env);
        FreshDealSound(db, user, key, cid, input, env, check.value.plan, deal);
      }
    }
  }

  lemma FreshDealSound(db: Db, user: User, key: string, cid: Id, input: Input, env: Env, plan: Plan, deal: Play21)
    requires Inv(db) && Fits(db, user, Blackjack, key, cid, input, env, plan) && (deal.settled ==> deal.payout >= 0)
    requires DealFresh(db, user, key, cid, plan, env, deal).Ok?
    ensures Sound(db, DealFresh(db, user, key, cid, plan, env, deal).value.0)
  {
    var p := PreferenceOf(db, user, Blackjack, env);
    var db1 := WithPreference(db, user, Blackjack, p);
    PreferenceKeeps(db, user, Blackjack, p);
    FitsAfterPreference(db, user, Blackjack, key, cid, input, env, plan, p);
    FitsOpens(db1, user, Blackjack, key, cid, input, env, plan, deal.autoResolveAt, NoRows);
    DealSound(db1, cid, key, plan, env, deal);
    SoundTwice(db, db1, Deal(db1, cid, key, plan, env, deal).value.0);
  }

  /** Moving a stake from the wallet into the open round leaves the user's unified assets as they were. */
  lemma OpenSameAssets(db: Db, w: Wallet, r: Round, env: Env)
    requires CommitmentsOk(db) && LinksOk(db) && MayOpen(db, w, r)
    ensures TotalAssets(OpenRound(db, w, r), r.user, w.balance, env)
         == TotalAssets(db, r.user, db.wallets[r.user].balance, env)
  {
    OpenedIdIsNew(db, w, r);
    NewStakeCounted(db.rounds, db.commitments[r.commitment].roundId, r);
  }

  lemma NewStakeCounted(rounds: map<Id, Round>, id: Id, r: Round)
    requires id !in rounds && r.phase == PlayerTurn
    ensures SumOf(rounds[id := r], OpenStakeOf(r.user)) == SumOf(rounds, OpenStakeOf(r.user)) + r.stake
  {
    SumOfUpdate(rounds, OpenStakeOf(r.user), id, r);
  }

  lemma DealSucceeds(db: Db, cid: Id, key: string, plan: Plan, env: Env, deal: Play21)
    requires Inv(db) && MayDeal(db, cid, key, plan, deal) && EconomyOk(env) && deal.payout >= 0
    requires var w := Apply(plan.before, 0 - plan.n.totalStake).value;
             w.balance + deal.payout + plan.n.base <= MAX_INT64 && w.ledgerSeq < MAX_INT64 && w.version < MAX_INT64
    requires var user := db.commitments[cid].user;
             env.economy.Some? ==> TotalAssets(db, user, db.wallets[user].balance, env).Ok?
    ensures Deal(db, cid, key, plan, env, deal).Ok?
  {
    FinishOpened(db, Apply(plan.before, 0 - plan.n.totalStake).value, DealtRound(db, cid, key, plan, deal), deal.payout,
                 env);
    DealOpens(db, cid, key, plan, env, deal);
    var debited := Apply(plan.before, 0 - plan.n.totalStake).value;
    DealtFinishes(OpenRound(db, debited, DealtRound(db, cid, key, plan, deal)), db.commitments[cid].roundId, env, deal);
  }

  lemma DealOpens(db: Db, cid: Id, key: string, plan: Plan, env: Env, deal: Play21)
    requires cid in db.commitments && Apply(plan.before, 0 - plan.n.totalStake).Ok?
    ensures var started := OpenRound(db, Apply(plan.before, 0 - plan.n.totalStake).value,
                                     DealtRound(db, cid, key, plan, deal));
            && db.commitments[cid].roundId in started.rounds
            && Deal(db, cid, key, plan, env, deal) == Dealt(started, db.commitments[cid].roundId, env, deal)
  {
  }

  lemma DealtFinishes(started: Db, id: Id, env: Env, deal: Play21)
    requires MayFinish(started, id) && Finish(started, id, deal.payout, env).Ok?
    ensures Dealt(started, id, env, deal).Ok?
  {
  }

  lemma DealHeadroom(db: Db, user: User, key: string, cid: Id, input: Input, env: Env, plan: Plan, deal: Play21)
    requires MoneyOk(db) && Fits(db, user, Blackjack, key, cid, input, env, plan) && DealResult(plan.n.base, deal)
    requires Apply(plan.before, 0 - plan.n.totalStake).Ok?
    ensures var w := Apply(plan.before, 0 - plan.n.totalStake).value;
            && w.balance + deal.payout + plan.n.base <= MAX_INT64 && w.ledgerSeq < MAX_INT64 && w.version < MAX_INT64
            && deal.payout >= 0
  {
    NormalizedFits(Blackjack, input);
  }

  lemma FinishOpened(db: Db, w: Wallet, r: Round, gross: int, env: Env)
    requires Inv(db) && MayOpen(db, w, r) && r.game == Blackjack && EconomyOk(env) && gross >= 0
    requires w.balance + gross + r.initial <= MAX_INT64 && w.ledgerSeq < MAX_INT64 && w.version < MAX_INT64
    requires env.economy.Some? ==> TotalAssets(db, r.user, db.wallets[r.user].balance, env).Ok?
    ensures var started, id := OpenRound(db, w, r), db.commitments[r.commitment].roundId;
            MayFinish(started, id) && Finish(started, id, gross, env).Ok?
  {
    OpenStarts(db, w, r);
    OpenSameAssets(db, w, r, env);
    FinishRefusal(OpenRound(db, w, r), db.commitments[r.commitment].roundId, gross, env);
  }

  lemma FitsDeals(db: Db, user: User, key: string, cid: Id, input: Input, env: Env, plan: Plan, deal: Play21)
    requires Inv(db) && Fits(db, user, Blackjack, key, cid, input, env, plan) && EconomyOk(env)
    requires DealResult(plan.n.base, deal)
    ensures Deal(db, cid, key, plan, env, deal).Ok?
  {
    FitsOpens(db, user, Blackjack, key, cid, input, env, plan, deal.autoResolveAt, NoRows);
    DealHeadroom(db, user, key, cid, input, env, plan, deal);
    DealSucceeds(db, cid, key, plan, env, deal);
  }

  /** Whether, and how, a deal is refused is decided before the shoe is opened. */
  lemma DealRefusalIgnoresOutcome(db: Db, user: User, key: string, cid: Id, input: Input, env: Env, deal: Play21)
    requires Inv(db) && EconomyOk(env)
    requires (Normalize(Blackjack, input).Ok? ==> DealResult(Normalize(Blackjack, input).value.base, deal))
    ensures var check := Preflight(db, user, Blackjack, key, cid, input, env);
            var result := CreateBlackjack(db, user, key, cid, input, env, deal);
            if check.Err? then result == Err(check.error) else result.Ok?
  {
    var check := Preflight(db, user, Blackjack, key, cid, input, env);
    DealCheckForm(db, user, key, cid, input, env, deal);
    if check.Ok? {
      if check.value.Replay? {
        ReadSound(db, check.value.id, env);
      } else {
        PreflightFits(db, user, Blackjack, key, cid, input, env);
        FreshDealSucceeds(db, user, key, cid, input, env, check.value.plan, deal);
      }
    }
  }

  lemma FreshDealSucceeds(db: Db, user: User, key: string, cid: Id, input: Input, env: Env, plan: Plan, deal: Play21)
    requires Inv(db) && Fits(db, user, Blackjack, key, cid, input, env, plan) && EconomyOk(env)
    requires DealResult(plan.n.base, deal)
    ensures DealFresh(db, user, key, cid, plan, env, deal).Ok?
  {
    var p := PreferenceOf(db, user, Blackjack, env);
    PreferenceKeeps(db, user, Blackjack, p);
    FitsAfterPreference(db, user, Blackjack, key, cid, input, env, plan, p);
    FitsDeals(WithPreference(db, user, Blackjack, p), user, key, cid, input, env, plan, deal);
  }

  // --------------------------------------------------------------- actions

  ghost predicate MayMove(db: Db, user: User, id: Id, move: Play21) {
    && MayFinish(db, id) && db.rounds[id].user == user && db.rounds[id].game == Blackjack
    && WalletOk(db.wallets[user])
    && EngineResult(db.rounds[id].initial, db.rounds[id].stake, db.wallets[user].balance, move)
  }

  lemma MoveRaises(db: Db, user: User, id: Id, move: Play21)
    requires MayMove(db, user, id, move) && Debited(db.wallets[user], move.additional).Ok?
    ensures MayRaise(db, Debited(db.wallets[user], move.additional).value, id, move.additional)
  {
    if move.additional > 0 { ApplyFacts(db.wallets[user], -move.additional); }
  }

  ghost function Raised(db: Db, user: User, id: Id, move: Play21): Db
    requires MayFinish(db, id) && db.rounds[id].user == user && Debited(db.wallets[user], move.additional).Ok?
  {
    RaiseStake(db, Debited(db.wallets[user], move.additional).value, id, move.additional, move.autoResolveAt)
  }

  /** The stake is in: the round is still open and everything holds. */
  lemma RaisedSound(db: Db, user: User, id: Id, move: Play21)
    requires Inv(db) && MayMove(db, user, id, move) && Debited(db.wallets[user], move.additional).Ok?
    ensures var raised := Raised(db, user, id, move); Sound(db, raised) && AtRest(raised, {id}) && MayFinish(raised, id)
  {
    MoveRaises(db, user, id, move);
    RaiseKeeps(db, Debited(db.wallets[user], move.additional).value, id, move.additional, move.autoResolveAt);
    RaiseExtends(db, Debited(db.wallets[user], move.additional).value, id, move.additional, move.autoResolveAt);
  }

  lemma MovedSound(db: Db, id: Id, move: Play21, env: Env)
    requires Inv(db) && AtRest(db, {id}) && MayFinish(db, id) && (move.settled ==> move.payout >= 0)
    requires Moved(db, id, move, env).Ok?
    ensures var done := Moved(db, id, move, env).value.0;
            && Sound(db, done) && id in done.rounds && done.rounds[id].user == db.rounds[id].user
            && done.actions == db.actions
  {
    MovedShape(db, id, move, env);
    if move.settled { FinishSound(db, id, move.payout, env); } else { RescheduledKeeps(db, id, move.autoResolveAt); }
  }

  lemma MovedShape(db: Db, id: Id, move: Play21, env: Env)
    requires MayFinish(db, id) && Moved(db, id, move, env).Ok?
    ensures var done := Moved(db, id, move, env).value.0;
            id in done.rounds && done.rounds[id].user == db.rounds[id].user && done.actions == db.actions
  {
  }

  lemma MoveSound(db: Db, user: User, id: Id, action: ActionInput, env: Env, move: Play21)
    requires Inv(db) && MayMove(db, user, id, move) && action.id !in db.actions
    requires Move(db, user, id, action, env, move).Ok?
    ensures Sound(db, Move(db, user, id, action, env, move).value.0)
  {
    RaisedSound(db, user, id, move);
    var raised := Raised(db, user, id, move);
    MoveForm(db, user, id, action, env, move);
    MovedSound(raised, id, move, env);
    var done := Moved(raised, id, move, env).value.0;
    SoundTwice(db, raised, done);
    RecordSound(db, done, action.id, ActionRow(user, id, action, Some(done.rounds[id])));
  }

  lemma MoveForm(db: Db, user: User, id: Id, action: ActionInput, env: Env, move: Play21)
    requires MayFinish(db, id) && db.rounds[id].user == user && Move(db, user, id, action, env, move).Ok?
    ensures Debited(db.wallets[user], move.additional).Ok?
    ensures MayFinish(Raised(db, user, id, move), id) && Moved(Raised(db, user, id, move), id, move, env).Ok?
    ensures var done := Moved(Raised(db, user, id, move), id, move, env).value.0;
            && id in done.rounds
            && var row := ActionRow(user, id, action, Some(done.rounds[id]));
               Move(db, user, id, action, env, move).value.0 == done.(actions := done.actions[action.id := row])
  {
  }

  lemma RecordSound(db: Db, done: Db, a: Id, row: ActionRow)
    requires Sound(db, done) && a !in done.actions && row.round in done.rounds
    requires done.rounds[row.round].user == row.user
    ensures Sound(db, done.(actions := done.actions[a := row]))
  {
    RecordOne(done, a, row);
    ActionsKeep(done, done.actions[a := row]);
    SoundTwice(db, done, done.(actions := done.actions[a := row]));
  }

  lemma RecordOne(db: Db, a: Id, row: ActionRow)
    requires a !in db.actions && row.round in db.rounds && db.rounds[row.round].user == row.user
    ensures MayRecord(db, db.actions[a := row])
  {
  }

  /** The engine's answer to a move, if it gives one, obeys its contract. */
  ghost predicate EngineOk(db: Db, id: Id, engine: Option<Play21>) {
    engine.Some? && id in db.rounds && db.rounds[id].phase == PlayerTurn && db.rounds[id].user in db.wallets ==>
      EngineResult(db.rounds[id].initial, db.rounds[id].stake, db.wallets[db.rounds[id].user].balance, engine.value)
  }

  lemma ActionSound(db: Db, user: User, id: Id, action: ActionInput, env: Env, hand: Option<int>,
                    engine: Option<Play21>)
    requires Inv(db) && EngineOk(db, id, engine)
    ensures BlackjackAction(db, user, id, action, env, hand, engine).Ok? ==>
              Sound(db, BlackjackAction(db, user, id, action, env, hand, engine).value.0)
  {
    if BlackjackAction(db, user, id, action, env, hand, engine).Ok? {
      ActionForm(db, user, id, action, env, hand, engine);
      if MovePreflight(db, user, id, action, env, hand) == Ok(Ready) {
        ReadyMayMove(db, user, id, action, env, hand, engine.value);
        MoveSound(db, user, id, action, env, engine.value);
      } else {
        SelfSound(db);
        AfterReadKeeps(db, id, env);
      }
    }
  }

  /** What an accepted action leaves: a replay or a review touches at most the mark, anything else is the move. */
  lemma ActionForm(db: Db, user: User, id: Id, action: ActionInput, env: Env, hand: Option<int>, engine: Option<Play21>)
    requires BlackjackAction(db, user, id, action, env, hand, engine).Ok?
    ensures var check := MovePreflight(db, user, id, action, env, hand);
            var after := BlackjackAction(db, user, id, action, env, hand, engine).value.0;
            && check.Ok?
            && (check.value != Ready ==> after == db || after == AfterRead(db, id, env))
            && (check.value == Ready ==>
                  && engine.Some? && id in db.rounds && db.rounds[id].phase == PlayerTurn && action.id !in db.actions
                  && db.rounds[id].commitment in db.commitments && db.rounds[id].user == user && user in db.wallets
                  && Move(db, user, id, action, env, engine.value).Ok?
                  && after == Move(db, user, id, action, env, engine.value).value.0)
  {
  }

  lemma RaiseSameAssets(db: Db, w: Wallet, id: Id, added: int, due: int, env: Env)
    requires MayRaise(db, w, id, added)
    ensures var user := db.rounds[id].user;
            TotalAssets(RaiseStake(db, w, id, added, due), user, w.balance, env)
              == TotalAssets(db, user, db.wallets[user].balance, env)
  {
    var db' := RaiseStake(db, w, id, added, due);
    SumOfUpdate(db.rounds, OpenStakeOf(db.rounds[id].user), id, db'.rounds[id]);
  }

  lemma MoveHeadroom(db: Db, user: User, id: Id, action: ActionInput, env: Env, hand: Option<int>, move: Play21)
    requires WalletsOk(db) && MayMove(db, user, id, move) && MovePreflight(db, user, id, action, env, hand) == Ok(Ready)
    ensures var w := db.wallets[user]; var r := db.rounds[id];
            && Debited(w, move.additional).Ok?
            && (env.economy.Some? ==> TotalAssets(db, user, w.balance, env).Ok?)
            && var d := Debited(w, move.additional).value;
               && d.balance + move.payout + r.initial <= MAX_INT64 && move.payout >= 0
               && d.ledgerSeq < MAX_INT64 && d.version < MAX_INT64
  {
  }

  /** Past its preflight, an accepted move cannot fail, whatever cards it meets. */
  lemma MoveSucceeds(db: Db, user: User, id: Id, action: ActionInput, env: Env, hand: Option<int>, move: Play21)
    requires Inv(db) && MayMove(db, user, id, move) && EconomyOk(env)
    requires MovePreflight(db, user, id, action, env, hand) == Ok(Ready)
    ensures Move(db, user, id, action, env, move).Ok?
  {
    MoveHeadroom(db, user, id, action, env, hand, move);
    RaisedSound(db, user, id, move);
    if move.settled { RaisedFinishes(db, user, id, move, env); }
    MoveCompletes(db, user, id, action, env, move);
  }

  lemma RaisedFinishes(db: Db, user: User, id: Id, move: Play21, env: Env)
    requires MayMove(db, user, id, move) && EconomyOk(env) && Debited(db.wallets[user], move.additional).Ok?
    requires MoneyOk(Raised(db, user, id, move))
    requires var d := Debited(db.wallets[user], move.additional).value;
             && d.balance + move.payout + db.rounds[id].initial <= MAX_INT64 && move.payout >= 0
             && d.ledgerSeq < MAX_INT64 && d.version < MAX_INT64
    requires env.economy.Some? ==> TotalAssets(db, user, db.wallets[user].balance, env).Ok?
    ensures MayFinish(Raised(db, user, id, move), id) && Finish(Raised(db, user, id, move), id, move.payout, env).Ok?
  {
    MoveRaises(db, user, id, move);
    RaiseSameAssets(db, Debited(db.wallets[user], move.additional).value, id, move.additional, move.autoResolveAt, env);
    FinishRefusal(Raised(db, user, id, move), id, move.payout, env);
  }

  lemma MoveCompletes(db: Db, user: User, id: Id, action: ActionInput, env: Env, move: Play21)
    requires MayFinish(db, id) && db.rounds[id].user == user && Debited(db.wallets[user], move.additional).Ok?
    requires var raised := Raised(db, user, id, move); MayFinish(raised, id) && Moved(raised, id, move, env).Ok?
    ensures Move(db, user, id, action, env, move).Ok?
  {
  }

  /** Why an action that the rules allow is refused: nothing here looks at a card. */
  ghost function ActionFault(db: Db, user: User, id: Id, action: ActionInput, env: Env,
                             hand: Option<int>): Option<Error> {
    match MovePreflight(db, user, id, action, env, hand)
    case Err(e) => Some(e)
    case Ok(Ready) =>
      if db.rounds[id].phase == Settled then Some(EngineRefused) else if action.id in db.actions then Some(Collision)
      else None
    case Ok(_) => None
  }

  lemma ReadyMayMove(db: Db, user: User, id: Id, action: ActionInput, env: Env, hand: Option<int>, move: Play21)
    requires WalletsOk(db) && EngineOk(db, id, Some(move))
    requires MovePreflight(db, user, id, action, env, hand) == Ok(Ready) && db.rounds[id].phase == PlayerTurn
    ensures MayMove(db, user, id, move)
  {
  }

  /** An action that the rules allow is refused exactly for those reasons, whatever it draws. */
  lemma ActionRefusalIgnoresOutcome(db: Db, user: User, id: Id, action: ActionInput, env: Env, hand: Option<int>,
                                    move: Play21)
    requires Inv(db) && EconomyOk(env) && EngineOk(db, id, Some(move))
    ensures var fault := ActionFault(db, user, id, action, env, hand);
            var result := BlackjackAction(db, user, id, action, env, hand, Some(move));
            if fault.Some? then result == Err(fault.value) else result.Ok?
  {
    ReadySucceeds(db, user, id, action, env, hand, move);
    ActionFollows(db, user, id, action, env, hand, move);
  }

  lemma ReadySucceeds(db: Db, user: User, id: Id, action: ActionInput, env: Env, hand: Option<int>, move: Play21)
    requires Inv(db) && EconomyOk(env) && EngineOk(db, id, Some(move))
    ensures MovePreflight(db, user, id, action, env, hand) == Ok(Ready) && db.rounds[id].phase == PlayerTurn ==>
              Move(db, user, id, action, env, move).Ok?
  {
    if MovePreflight(db, user, id, action, env, hand) == Ok(Ready) && db.rounds[id].phase == PlayerTurn {
      ReadyMayMove(db, user, id, action, env, hand, move);
      MoveSucceeds(db, user, id, action, env, hand, move);
    }
  }

  lemma ActionFollows(db: Db, user: User, id: Id, action: ActionInput, env: Env, hand: Option<int>, move: Play21)
    requires MovePreflight(db, user, id, action, env, hand) == Ok(Ready) && db.rounds[id].phase == PlayerTurn ==>
              Move(db, user, id, action, env, move).Ok?
    ensures var fault := ActionFault(db, user, id, action, env, hand);
            var result := BlackjackAction(db, user, id, action, env, hand, Some(move));
            if fault.Some? then result == Err(fault.value) else result.Ok?
  {
  }

  // ------------------------------------------------------------------ jobs

  lemma StandSound(db: Db, id: Id, n: nat)
    requires Inv(db) && MayFinish(db, id)
    ensures var stood := Stood(db, id, n); Sound(db, stood) && MayFinish(stood, id)
  {
    StandMarks(db, id, n);
    StandKeepsRefs(db, id, n);
    MarksKeep(db, Stood(db, id, n), id);
  }

  lemma StandKeepsRefs(db: Db, id: Id, n: nat)
    requires RefsOk(db) && AtRest(db, {}) && MayFinish(db, id)
    ensures var stood := Stood(db, id, n); RefsOk(stood) && AtRest(stood, {}) && RowsStay(db, stood)
  {
    StandMarks(db, id, n);
    RoundMarkKeepsRefs(db, id, Stood(db, id, n).rounds[id], {});
  }

  lemma RestBut(db: Db, id: Id)
    requires AtRest(db, {})
    ensures AtRest(db, {id})
  {
  }

  lemma StandMarks(db: Db, id: Id, n: nat)
    requires MayFinish(db, id)
    ensures MarksOnly(db, Stood(db, id, n), id) && MayFinish(Stood(db, id, n), id)
  {
  }

  lemma ResolveSound(db: Db, id: Id, env: Env, payout: int, ids: seq<Id>)
    requires Inv(db) && MayFinish(db, id) && payout >= 0 && FreshActions(db, ids)
    requires Resolve(db, id, env, payout, ids).Ok?
    ensures Sound(db, Resolve(db, id, env, payout, ids).value.0)
  {
    StoodSettles(db, id, env, payout, |ids|);
    MovedShape(Stood(db, id, |ids|), id, Play21(0, true, payout, 0), env);
    SystemSound(db, Finish(Stood(db, id, |ids|), id, payout, env).value.0, id, ids, db.rounds[id].version);
  }

  lemma StoodSettles(db: Db, id: Id, env: Env, payout: int, stands: nat)
    requires Inv(db) && MayFinish(db, id) && payout >= 0 && Finish(Stood(db, id, stands), id, payout, env).Ok?
    ensures Sound(db, Finish(Stood(db, id, stands), id, payout, env).value.0)
  {
    var stood := Stood(db, id, stands);
    StandSound(db, id, stands);
    RestBut(stood, id);
    FinishSound(stood, id, payout, env);
    SoundTwice(db, stood, Finish(stood, id, payout, env).value.0);
  }

  lemma SystemSound(db: Db, done: Db, id: Id, ids: seq<Id>, version: nat)
    requires Sound(db, done) && id in done.rounds && FreshActions(done, ids)
    ensures var actions := WithSystemActions(done.actions, done.rounds[id].user, id, ids, version, done.rounds[id]);
            Sound(db, done.(actions := actions))
  {
    SystemRecords(done, id, ids, version);
    var actions := WithSystemActions(done.actions, done.rounds[id].user, id, ids, version, done.rounds[id]);
    ActionsKeep(done, actions);
    SoundTwice(db, done, done.(actions := actions));
  }

  lemma SystemRecords(db: Db, id: Id, ids: seq<Id>, version: nat)
    requires id in db.rounds && FreshActions(db, ids)
    ensures MayRecord(db, WithSystemActions(db.actions, db.rounds[id].user, id, ids, version, db.rounds[id]))
  {
    SystemActionsAdded(db.actions, db.rounds[id].user, id, ids, version, db.rounds[id]);
  }

  /** A pending job belongs to a live round, so closing one never takes the auto-resolve away from it. */
  lemma CloseOnlyRecovery(db: Db, id: Id, kind: JobKind, env: Env)
    requires JobsRefer(db) && JobPreflight(db, id, kind, env) == Ok(Close)
    ensures kind == Recovery
  {
  }

  lemma JobWriteSound(db: Db, id: Id, kind: JobKind, env: Env, job: Job)
    requires Inv(db) && (id, kind) in db.jobs && db.jobs[(id, kind)].status == Pending
    requires (job.status == Pending || kind == Recovery)
    ensures Sound(db, db.(jobs := db.jobs[(id, kind) := job]))
  {
    PendingJobKeeps(db, (id, kind), job);
  }

  lemma JobSound(db: Db, id: Id, kind: JobKind, env: Env, payout: int, ids: seq<Id>)
    requires Inv(db) && payout >= 0
    ensures ProcessJob(db, id, kind, env, payout, ids).Ok? ==>
              Sound(db, ProcessJob(db, id, kind, env, payout, ids).value.0)
  {
    var check := JobPreflight(db, id, kind, env);
    if ProcessJob(db, id, kind, env, payout, ids).Ok? {
      match check.value {
        case Skip => SelfSound(db);
        case Reviewed => AfterReadKeeps(db, id, env);
        case Close =>
          CloseOnlyRecovery(db, id, kind, env);
          JobWriteSound(db, id, kind, env, db.jobs[(id, kind)].(status := Done));
        case Postpone => JobWriteSound(db, id, kind, env, db.jobs[(id, kind)].(runAt := db.rounds[id].autoResolveAt));
        case Settle => ResolveSound(db, id, env, payout, ids);
      }
    }
  }

  /** An automatic resolution fails only for reasons the cards have no part in. */
  lemma JobRefusalIgnoresOutcome(db: Db, id: Id, env: Env, payout: int, ids: seq<Id>)
    requires MoneyOk(db) && MayFinish(db, id) && EconomyOk(env) && JobPreflight(db, id, AutoResolve, env) == Ok(Settle)
    requires 0 <= payout <= 2 * db.rounds[id].stake
    ensures var user := db.rounds[id].user;
            var total := TotalAssets(Stood(db, id, |ids|), user, db.wallets[user].balance, env);
            if env.economy.Some? && total.Err? then Resolve(db, id, env, payout, ids) == Err(total.error)
            else Resolve(db, id, env, payout, ids).Ok?
  {
    StandMarks(db, id, |ids|);
    MarksKeepMoney(db, Stood(db, id, |ids|), id);
    FinishRefusal(Stood(db, id, |ids|), id, payout, env);
    ResolveFollows(db, id, env, payout, ids);
  }

  lemma ResolveFollows(db: Db, id: Id, env: Env, payout: int, ids: seq<Id>)
    requires MayFinish(db, id)
    ensures var finish := Finish(Stood(db, id, |ids|), id, payout, env);
            var result := Resolve(db, id, env, payout, ids);
            if finish.Err? then result == Err(finish.error) else result.Ok?
  {
  }

  // ---------------------------------------------------- other transactions

  lemma EnsureAccountKeeps(db: Db, user: User)
    requires Inv(db)
    ensures Sound(db, EnsureAccount(db, user))
  {
    if user in db.wallets { SelfSound(db); } else { WalletKeeps(db, user, Wallet(0, 0, 0)); }
  }

  lemma ViewSound(db: Db, user: User, game: Game, env: Env)
    requires Inv(db)
    ensures Sound(db, Viewed(db, user, game, env))
  {
    var latest := LatestRound(db, user, game);
    var read := if latest.Some? then AfterRead(db, latest.value, env) else db;
    if latest.Some? { AfterReadKeeps(db, latest.value, env); } else { SelfSound(db); }
    PreferenceKeeps(read, user, game, PreferenceOf(read, user, game, env));
    SoundTwice(db, read, Viewed(db, user, game, env));
  }

  lemma BootstrapSound(db: Db, user: User, game: Game, env: Env, id: Id, roundId: Id, draw: nat)
    requires Inv(db)
    ensures Bootstrap(db, user, game, env, id, roundId, draw).Ok? ==>
              Sound(db, Bootstrap(db, user, game, env, id, roundId, draw).value.0)
  {
    if Bootstrap(db, user, game, env, id, roundId, draw).Ok? {
      var viewed := Viewed(db, user, game, env);
      ViewSound(db, user, game, env);
      if env.entry == Play && Blocker(db, user, game).None? {
        IssueSound(db, viewed, user, game, Bound(env, viewed.prefs[(user, game)]), id, roundId, draw);
      }
    }
  }

  lemma IssueSound(db: Db, mid: Db, user: User, game: Game, binding: Binding, id: Id, roundId: Id, draw: nat)
    requires Sound(db, mid) && NextCommitment(mid, user, game, binding, id, roundId, draw).Ok?
    ensures Sound(db, Issued(mid, user, game, binding, id, roundId, draw))
  {
    IssueKeeps(mid, user, game, binding, id, roundId, draw);
    SoundTwice(db, mid, Issued(mid, user, game, binding, id, roundId, draw));
  }

  lemma SetClientSeedSound(db: Db, user: User, game: Game, seed: string, env: Env, id: Id, roundId: Id, draw: nat)
    requires Inv(db)
    ensures SetClientSeed(db, user, game, seed, env, id, roundId, draw).Ok? ==>
              Sound(db, SetClientSeed(db, user, game, seed, env, id, roundId, draw).value.0)
  {
    if SetClientSeed(db, user, game, seed, env, id, roundId, draw).Ok? {
      var p := PreferenceOf(db, user, game, env);
      var q := Reseeded(p, seed);
      var db1 := WithPreference(db, user, game, q);
      PreferenceKeeps(db, user, game, q);
      IssueKeeps(db1, user, game, Bound(env, q), id, roundId, draw);
      SoundTwice(db, db1, Issued(db1, user, game, Bound(env, q), id, roundId, draw));
    }
  }

  lemma PresentMarks(db: Db, id: Id)
    requires id in db.rounds
    ensures MarksOnly(db, db.(rounds := db.rounds[id := db.rounds[id].(presented := true)]), id)
  {
  }

  lemma RevealSound(db: Db, user: User, id: Id, actionId: Id)
    requires Inv(db)
    ensures RevealComplete(db, user, id, actionId).Ok? ==> Sound(db, RevealComplete(db, user, id, actionId).value.0)
  {
    if RevealComplete(db, user, id, actionId).Ok? {
      if actionId in db.actions || db.rounds[id].presented {
        SelfSound(db);
      } else {
        PresentSound(db, id, actionId, ActionRow(user, id, ActionInput(actionId, ScratchReveal, 0, 0), None));
      }
    }
  }

  lemma PresentSound(db: Db, id: Id, a: Id, row: ActionRow)
    requires Inv(db) && id in db.rounds && a !in db.actions && row.round == id && db.rounds[id].user == row.user
    ensures var shown := db.rounds[id].(presented := true);
            Sound(db, db.(rounds := db.rounds[id := shown], actions := db.actions[a := row]))
  {
    PresentMarks(db, id);
    RoundMarkKeeps(db, id, db.rounds[id].(presented := true));
    RecordSound(db, db.(rounds := db.rounds[id := db.rounds[id].(presented := true)]), a, row);
  }

  lemma TransferSound(db: Db, user: User, delta: int)
    requires Inv(db) && Transfer(db, user, delta).Ok?
    ensures var db' := Transfer(db, user, delta).value.0;
            Inv(db') && Extends(db, db') && Chips(db') == Chips(db) + delta
  {
    ApplyFacts(db.wallets[user], delta);
    WalletKeeps(db, user, Apply(db.wallets[user], delta).value);
  }
}
