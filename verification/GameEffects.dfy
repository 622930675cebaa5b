/** What each transaction of Direct Play does to the stored rows, told from the request and the rows alone. */
module GameEffects {
  import opened Numbers
  import opened Wrappers
  import opened Wagers
  import opened FastGames
  import opened Decimal
  import opened PrizeTable
  import opened Outcomes
  import opened GameStore
  import opened GameInvariant
  import opened GameUpdates
  import opened GameTransactions
  import FairReturn
  import PayoutCap
  import ScratchCard

  // ----------------------------------------------------------- settlements

  /** Everything a user owns: chips, open stakes and the rest of the platform's assets. */
  ghost function Assets(db: Db, user: User, env: Env): int
    requires user in db.wallets
  {
    env.otherAssets + db.wallets[user].balance + SumOf(db.rounds, OpenStakeOf(user))
  }

  /** What the cap keeps back: of the profit, as much as would lift the assets above the cap. */
  function Clip(economy: Option<Economy>, assets: int, stake: int, payout: int): int {
    match economy
    case None => 0
    case Some(e) => Min(Max(payout - stake, 0), Max(assets - stake + payout - e.assetCap, 0))
  }

  /** Only this player's wallet and this round moved. */
  ghost predicate OnlyTouches(db: Db, after: Db, user: User, id: Id) {
    && after.wallets.Keys == db.wallets.Keys
    && (forall u :: u in db.wallets && u != user ==> after.wallets[u] == db.wallets[u])
    && after.rounds.Keys == db.rounds.Keys + {id}
    && (forall k :: k in db.rounds && k != id ==> after.rounds[k] == db.rounds[k])
  }

  /** Only this commitment moved, to this state. */
  ghost predicate OnlyCommitment(db: Db, after: Db, c: Id, state: CommitmentState) {
    c in db.commitments && after.commitments == db.commitments[c := db.commitments[c].(state := state)]
  }

  /** One entry of the ledger for each amount moved. */
  predicate Booked(w: Wallet, w': Wallet, taken: int, given: int) {
    var entries := (if taken > 0 then 1 else 0) + (if given > 0 then 1 else 0);
    && w'.balance == w.balance - taken + given
    && w'.ledgerSeq == w.ledgerSeq + entries && w'.version == w.version + entries
  }

  /** A round is settled for `gross` with a fair return of `fair`, its player having just put in `taken` of its stake:
      the row holds both and what the cap keeps back, the wallet moves by exactly the rest, the seed is out, the supply
      event is the net, no job is left, and nothing else moves. */
  ghost predicate SettledAs(db: Db, after: Db, env: Env, id: Id, user: User, stake: int, taken: int, gross: int,
                            fair: int)
  {
    && user in db.wallets && OnlyTouches(db, after, user, id)
    && var r := after.rounds[id];
       && r.user == user && r.phase == Settled && r.stake == stake && r.fair == fair && r.payout == gross + fair
       && r.withheld == Clip(env.economy, Assets(db, user, env), stake, r.payout)
       && Booked(db.wallets[user], after.wallets[user], taken, r.payout - r.withheld)
       && OnlyCommitment(db, after, r.commitment, Revealed)
       && after.supply == (if Net(r) == 0 then db.supply else db.supply[id := Net(r)])
       && forall k :: k in after.jobs && k.0 == id ==> after.jobs[k].status != Pending
  }

  lemma ClipExact(env: Env, total: int, stake: int, payout: int)
    requires Withheld(env, total, stake, payout).Ok?
    ensures Withheld(env, total, stake, payout).value == Clip(env.economy, total, stake, payout)
  {
  }

  lemma PayExact(w: Wallet, env: Env, total: int, stake: int, payout: int)
    requires Pay(w, env, total, stake, payout).Ok?
    ensures var p := Pay(w, env, total, stake, payout).value;
            && p.payout == payout && p.withheld == Clip(env.economy, total, stake, payout)
            && (p.paid == w || payout - p.withheld > 0) && Booked(w, p.paid, 0, Max(payout - p.withheld, 0))
  {
    ClipExact(env, total, stake, payout);
  }

  /** The return due to a hand by the rules and the seed of its commitment. */
  function FairDue(db: Db, id: Id): nat
    requires id in db.rounds && db.rounds[id].commitment in db.commitments
  {
    var c := db.commitments[db.rounds[id].commitment];
    FairReturn.Bonus(c.binding.fairRules, db.rounds[id].initial, c.draw)
  }

  lemma FinalPayExact(db: Db, id: Id, gross: int, env: Env)
    requires MayFinish(db, id) && FinalPay(db, id, gross, env).Ok?
    ensures var r, p := db.rounds[id], FinalPay(db, id, gross, env).value;
            && p.payout == gross + FairDue(db, id)
            && p.withheld == Clip(env.economy, Assets(db, r.user, env), r.stake, p.payout)
            && Booked(db.wallets[r.user], p.paid, 0, Max(p.payout - p.withheld, 0))
  {
    var r := db.rounds[id];
    var total := if env.economy.None? then 0 else TotalAssets(db, r.user, db.wallets[r.user].balance, env).value;
    PayExact(db.wallets[r.user], env, total, r.stake, gross + FairDue(db, id));
  }

  /** A round closed on given terms. */
  lemma ClosedExactly(db: Db, w: Wallet, id: Id, payout: int, withheld: int)
    requires id in db.rounds && db.rounds[id].commitment in db.commitments && db.rounds[id].user in db.wallets
    ensures var after, user := CloseRound(db, w, id, payout, withheld), db.rounds[id].user;
            && OnlyTouches(db, after, user, id) && after.wallets[user] == w
            && after.rounds[id] == db.rounds[id].(payout := payout, withheld := withheld, phase := Settled)
            && OnlyCommitment(db, after, db.rounds[id].commitment, Revealed)
            && after.supply
              == (if Net(after.rounds[id]) == 0 then db.supply else db.supply[id := Net(after.rounds[id])])
            && (forall k :: k in after.jobs && k.0 == id ==> after.jobs[k].status != Pending)
            && after.actions == db.actions
  {
  }

  lemma FinishForm(db: Db, id: Id, gross: int, env: Env)
    requires MayFinish(db, id) && Finish(db, id, gross, env).Ok?
    ensures FinalPay(db, id, gross, env).Ok?
    ensures var p := FinalPay(db, id, gross, env).value;
            Finish(db, id, gross, env).value
              == (CloseRound(WithFair(db, id, FairDue(db, id)), p.paid, id, p.payout, p.withheld), id)
  {
  }

  /** Finishing an open hand settles it for exactly the gross amount it is given. */
  lemma FinishSettles(db: Db, id: Id, gross: int, env: Env)
    requires MayFinish(db, id) && WalletOk(db.wallets[db.rounds[id].user]) && gross >= 0
    requires Finish(db, id, gross, env).Ok?
    ensures var r, after := db.rounds[id], Finish(db, id, gross, env).value.0;
            && SettledAs(db, after, env, id, r.user, r.stake, 0, gross, FairDue(db, id))
            && KeepsTerms(r, after.rounds[id]) && after.actions == db.actions
  {
    FinishForm(db, id, gross, env);
    FinalPayExact(db, id, gross, env);
    var p := FinalPay(db, id, gross, env).value;
    FinalPayFacts(db, id, gross, env);
    ClosedExactly(WithFair(db, id, FairDue(db, id)), p.paid, id, p.payout, p.withheld);
  }

  /** What a settlement leaves of the row as it was. */
  predicate KeepsTerms(r: Round, r': Round) {
    && r'.user == r.user && r'.game == r.game && r'.commitment == r.commitment && r'.nonce == r.nonce && r'.key == r.key
    && r'.request == r.request && r'.initial == r.initial && r'.stake == r.stake && r'.version == r.version
    && r'.review == r.review && r'.presented == r.presented && r'.autoResolveAt == r.autoResolveAt && r'.rows == r.rows
  }

  // --------------------------------------------------------------- actions

  lemma DebitBooked(w: Wallet, added: int)
    requires added >= 0 && Debited(w, added).Ok?
    ensures Booked(w, Debited(w, added).value, added, 0)
  {
  }

  lemma RaisedAssets(db: Db, w: Wallet, id: Id, added: int, due: int, env: Env)
    requires id in db.rounds && db.rounds[id].phase == PlayerTurn && db.rounds[id].user in db.wallets
    requires w.balance == db.wallets[db.rounds[id].user].balance - added
    ensures Assets(RaiseStake(db, w, id, added, due), db.rounds[id].user, env) == Assets(db, db.rounds[id].user, env)
  {
    var db' := RaiseStake(db, w, id, added, due);
    SumOfUpdate(db.rounds, OpenStakeOf(db.rounds[id].user), id, db'.rounds[id]);
  }

  /** A settlement after a raise, told from the rows before the raise. */
  lemma RaisedSettles(db: Db, w: Wallet, id: Id, added: int, due: int, after: Db, env: Env, gross: int, fair: int)
    requires id in db.rounds && db.rounds[id].phase == PlayerTurn && db.rounds[id].user in db.wallets && added >= 0
    requires Booked(db.wallets[db.rounds[id].user], w, added, 0)
    requires var r := db.rounds[id];
             SettledAs(RaiseStake(db, w, id, added, due), after, env, id, r.user, r.stake + added, 0, gross, fair)
    ensures var r := db.rounds[id]; SettledAs(db, after, env, id, r.user, r.stake + added, added, gross, fair)
  {
    RaisedAssets(db, w, id, added, due, env);
  }

  /** The answer is the row after the action, kept for retries under the action's id; nobody else's action moves. */
  ghost predicate Recorded(db: Db, after: Db, user: User, id: Id, action: ActionInput, shown: Option<Round>) {
    && id in after.rounds && shown == Some(after.rounds[id])
    && after.actions == db.actions[action.id := ActionRow(user, id, action, shown)]
  }

  /** The live hand of this player was settled for the engine's payout and the fair return, the added stake put in. */
  ghost predicate EndsHand(db: Db, after: Db, user: User, id: Id, action: ActionInput, env: Env, move: Play21,
                           shown: Option<Round>) {
    && id in db.rounds && db.rounds[id].commitment in db.commitments && Recorded(db, after, user, id, action, shown)
    && var r := db.rounds[id]; var c := db.commitments[r.commitment];
       && r.user == user && r.game == Blackjack && r.phase == PlayerTurn && !r.review
       && SettledAs(db, after, env, id, user, r.stake + move.additional, move.additional, move.payout,
                    FairReturn.Bonus(c.binding.fairRules, r.initial, c.draw))
       && after.rounds[id].version == r.version + 1
  }

  /** An accepted action that ends the hand pays what the engine says plus the fair return, for the stake as raised. */
  lemma ActionSettles(db: Db, user: User, id: Id, action: ActionInput, env: Env, hand: Option<int>, move: Play21)
    requires Inv(db) && EngineOk(db, id, Some(move)) && move.settled && action.id !in db.actions
    requires var tx := BlackjackAction(db, user, id, action, env, hand, Some(move)); tx.Ok? && tx.value.1.Some?
    ensures var (after, shown) := BlackjackAction(db, user, id, action, env, hand, Some(move)).value;
            EndsHand(db, after, user, id, action, env, move, shown)
  {
    ActionMoves(db, user, id, action, env, hand, move);
    MoveSettles(db, user, id, action, env, move);
  }

  /** An action answered with its round, and not known before, was an accepted move on a live hand of its player. */
  lemma ActionMoves(db: Db, user: User, id: Id, action: ActionInput, env: Env, hand: Option<int>, move: Play21)
    requires Inv(db) && EngineOk(db, id, Some(move)) && action.id !in db.actions
    requires var tx := BlackjackAction(db, user, id, action, env, hand, Some(move)); tx.Ok? && tx.value.1.Some?
    ensures MayMove(db, user, id, move) && !db.rounds[id].review && env.recovered
    ensures Move(db, user, id, action, env, move) == BlackjackAction(db, user, id, action, env, hand, Some(move))
  {
    ActionTaken(db, user, id, action, env, hand, move);
    ReadyMayMove(db, user, id, action, env, hand, move);
  }

  lemma ActionTaken(db: Db, user: User, id: Id, action: ActionInput, env: Env, hand: Option<int>, move: Play21)
    requires action.id !in db.actions
    requires var tx := BlackjackAction(db, user, id, action, env, hand, Some(move)); tx.Ok? && tx.value.1.Some?
    ensures MovePreflight(db, user, id, action, env, hand) == Ok(Ready)
    ensures id in db.rounds && db.rounds[id].phase == PlayerTurn && !db.rounds[id].review && env.recovered
    ensures db.rounds[id].commitment in db.commitments && db.rounds[id].user == user && user in db.wallets
    ensures Move(db, user, id, action, env, move) == BlackjackAction(db, user, id, action, env, hand, Some(move))
  {
  }

  lemma MoveSettles(db: Db, user: User, id: Id, action: ActionInput, env: Env, move: Play21)
    requires MayMove(db, user, id, move) && move.settled && Move(db, user, id, action, env, move).Ok?
    ensures var (after, shown) := Move(db, user, id, action, env, move).value; var r := db.rounds[id];
            && SettledAs(db, after, env, id, user, r.stake + move.additional, move.additional, move.payout,
                         FairDue(db, id))
            && after.rounds[id].version == r.version + 1 && Recorded(db, after, user, id, action, shown)
  {
    MoveParts(db, user, id, action, env, move);
    var d := Debited(db.wallets[user], move.additional).value;
    var raised := RaiseStake(db, d, id, move.additional, move.autoResolveAt);
    var done := Finish(raised, id, move.payout, env).value.0;
    RaiseSettles(db, user, id, env, move, d);
    ActionsApart(db, done, env, id, user, db.rounds[id].stake + move.additional, move.additional, move.payout,
                 FairDue(db, id), Move(db, user, id, action, env, move).value.0.actions);
  }

  lemma RaiseSettles(db: Db, user: User, id: Id, env: Env, move: Play21, d: Wallet)
    requires MayMove(db, user, id, move) && Debited(db.wallets[user], move.additional) == Ok(d)
    requires var raised := RaiseStake(db, d, id, move.additional, move.autoResolveAt);
             MayFinish(raised, id) && Finish(raised, id, move.payout, env).Ok? && move.payout >= 0
    ensures var raised := RaiseStake(db, d, id, move.additional, move.autoResolveAt);
            var done, r := Finish(raised, id, move.payout, env).value.0, db.rounds[id];
            && SettledAs(db, done, env, id, user, r.stake + move.additional, move.additional, move.payout,
                         FairDue(db, id))
            && done.rounds[id].version == r.version + 1 && done.actions == db.actions
  {
    DebitBooked(db.wallets[user], move.additional);
    if move.additional > 0 { ApplyFacts(db.wallets[user], -move.additional); }
    var raised := RaiseStake(db, d, id, move.additional, move.autoResolveAt);
    FinishSettles(raised, id, move.payout, env);
    RaisedSettles(db, d, id, move.additional, move.autoResolveAt, Finish(raised, id, move.payout, env).value.0, env,
                  move.payout, FairDue(db, id));
  }

  /** The recorded actions have no part in a settlement. */
  lemma ActionsApart(db: Db, after: Db, env: Env, id: Id, user: User, stake: int, taken: int, gross: int, fair: int,
                     actions: map<Id, ActionRow>)
    requires SettledAs(db, after, env, id, user, stake, taken, gross, fair)
    ensures SettledAs(db, after.(actions := actions), env, id, user, stake, taken, gross, fair)
  {
  }

  /** A settling move is a debit, a raise and a settlement for the engine's payout, recorded under its id. */
  lemma MoveParts(db: Db, user: User, id: Id, action: ActionInput, env: Env, move: Play21)
    requires MayMove(db, user, id, move) && move.settled && Move(db, user, id, action, env, move).Ok?
    ensures Debited(db.wallets[user], move.additional).Ok?
    ensures var raised := RaiseStake(db, Debited(db.wallets[user], move.additional).value, id, move.additional,
                                     move.autoResolveAt);
            && MayFinish(raised, id) && Finish(raised, id, move.payout, env).Ok?
            && var done := Finish(raised, id, move.payout, env).value.0;
               && id in done.rounds
               && var row := ActionRow(user, id, action, Some(done.rounds[id]));
                  Move(db, user, id, action, env, move).value == (done.(actions := done.actions[action.id := row]),
                                                                  row.response)
  {
  }

  /** An accepted action that leaves the hand open puts in exactly the added stake and moves the deadline of the hand
      and of its job; nothing else of it, or of anything else, moves. */
  lemma ActionLeavesOpen(db: Db, user: User, id: Id, action: ActionInput, env: Env, hand: Option<int>, move: Play21)
    requires Inv(db) && EngineOk(db, id, Some(move)) && !move.settled && action.id !in db.actions
    requires var tx := BlackjackAction(db, user, id, action, env, hand, Some(move)); tx.Ok? && tx.value.1.Some?
    ensures var (after, shown) := BlackjackAction(db, user, id, action, env, hand, Some(move)).value;
            && id in db.rounds && db.rounds[id].user == user && user in db.wallets
            && OnlyTouches(db, after, user, id) && Recorded(db, after, user, id, action, shown)
            && Booked(db.wallets[user], after.wallets[user], move.additional, 0)
            && after.rounds[id] == db.rounds[id].(stake := db.rounds[id].stake + move.additional,
                                                  version := db.rounds[id].version + 1,
                                                  autoResolveAt := move.autoResolveAt)
            && (id, AutoResolve) in db.jobs
            && after.jobs == db.jobs[(id, AutoResolve) := db.jobs[(id, AutoResolve)].(runAt := move.autoResolveAt)]
            && after.commitments == db.commitments && after.supply == db.supply
  {
    ActionMoves(db, user, id, action, env, hand, move);
    assert AwaitsResolve(db, id);
    OpenMove(db, user, id, action, env, move);
  }

  lemma OpenMove(db: Db, user: User, id: Id, action: ActionInput, env: Env, move: Play21)
    requires MayMove(db, user, id, move) && !move.settled && Move(db, user, id, action, env, move).Ok?
    requires AwaitsResolve(db, id)
    ensures var (after, shown) := Move(db, user, id, action, env, move).value; var r := db.rounds[id];
            && OnlyTouches(db, after, user, id) && Recorded(db, after, user, id, action, shown)
            && Booked(db.wallets[user], after.wallets[user], move.additional, 0)
            && after.rounds[id] == r.(stake := r.stake + move.additional, version := r.version + 1,
                                      autoResolveAt := move.autoResolveAt)
            && after.jobs == db.jobs[(id, AutoResolve) := db.jobs[(id, AutoResolve)].(runAt := move.autoResolveAt)]
            && after.commitments == db.commitments && after.supply == db.supply
  {
    DebitBooked(db.wallets[user], move.additional);
  }

  // ----------------------------------------------------------------- deals

  lemma OpenedAssets(db: Db, w: Wallet, r: Round, env: Env)
    requires r.commitment in db.commitments && db.commitments[r.commitment].roundId !in db.rounds
    requires r.phase == PlayerTurn && r.user in db.wallets && w.balance == db.wallets[r.user].balance - r.stake
    ensures Assets(OpenRound(db, w, r), r.user, env) == Assets(db, r.user, env)
  {
    NewStakeCounted(db.rounds, db.commitments[r.commitment].roundId, r);
  }

  /** A settlement after the round was opened, told from the rows before. */
  lemma OpenedSettles(db: Db, w: Wallet, r: Round, after: Db, env: Env, gross: int, fair: int)
    requires r.commitment in db.commitments && db.commitments[r.commitment].roundId !in db.rounds && r.stake > 0
    requires r.phase == PlayerTurn && r.user in db.wallets && Booked(db.wallets[r.user], w, r.stake, 0)
    requires var id := db.commitments[r.commitment].roundId;
             && SettledAs(OpenRound(db, w, r), after, env, id, r.user, r.stake, 0, gross, fair)
             && after.rounds[id].commitment == r.commitment
    ensures var id := db.commitments[r.commitment].roundId;
            SettledAs(db, after, env, id, r.user, r.stake, r.stake, gross, fair)
  {
    OpenedAssets(db, w, r, env);
    var id := db.commitments[r.commitment].roundId;
    OpenedTouches(db, w, r, after);
    OpenedCommits(db, w, r, after);
    assert after.supply == if Net(after.rounds[id]) == 0 then db.supply else db.supply[id := Net(after.rounds[id])];
  }

  lemma OpenedTouches(db: Db, w: Wallet, r: Round, after: Db)
    requires r.commitment in db.commitments && r.user in db.wallets
    requires var id := db.commitments[r.commitment].roundId;
             id !in db.rounds && OnlyTouches(OpenRound(db, w, r), after, r.user, id)
    ensures OnlyTouches(db, after, r.user, db.commitments[r.commitment].roundId)
  {
    var started := OpenRound(db, w, r);
    assert started.wallets.Keys == db.wallets.Keys;
    assert started.rounds.Keys == db.rounds.Keys + {db.commitments[r.commitment].roundId};
  }

  lemma OpenedCommits(db: Db, w: Wallet, r: Round, after: Db)
    requires r.commitment in db.commitments && OnlyCommitment(OpenRound(db, w, r), after, r.commitment, Revealed)
    ensures OnlyCommitment(db, after, r.commitment, Revealed)
  {
  }

  /** A new round under the commitment offered for it, told from what its player asked for. */
  ghost predicate NewRow(db: Db, after: Db, user: User, game: Game, key: string, cid: Id, input: Input, id: Id) {
    && cid in db.commitments && db.commitments[cid].user == user && db.commitments[cid].game == game
    && db.commitments[cid].state == Available && id == db.commitments[cid].roundId && id !in db.rounds
    && id in after.rounds
    && var r, c := after.rounds[id], db.commitments[cid];
       && r.user == user && r.game == game && r.key == key && r.commitment == cid && r.nonce == c.nonce
       && Normalize(game, input).Ok? && r.request == Normalize(game, input).value.input
       && r.initial == Normalize(game, input).value.base && !r.review && !r.presented
  }

  /** A checked create about to open its round. */
  ghost predicate Opening(db: Db, user: User, game: Game, key: string, cid: Id, input: Input, plan: Plan, w: Wallet,
                          r: Round) {
    && HoldsAvailable(db, cid, user, game) && db.commitments[cid].roundId !in db.rounds
    && Normalize(game, input) == Ok(plan.n) && plan.n.totalStake > 0
    && user in db.wallets && plan.before == db.wallets[user] && WalletOk(w)
    && Apply(plan.before, 0 - plan.n.totalStake) == Ok(w) && Booked(db.wallets[user], w, plan.n.totalStake, 0)
    && r == NewRound(db.commitments[cid], cid, key, plan.n, r.autoResolveAt, r.rows)
  }

  lemma FitsOpening(db: Db, user: User, game: Game, key: string, cid: Id, input: Input, env: Env, plan: Plan, due: int,
                    rows: Rows) returns (w: Wallet, r: Round)
    requires Inv(db) && Fits(db, user, game, key, cid, input, env, plan) && Readable(game, rows)
    ensures Opening(db, user, game, key, cid, input, plan, w, r)
    ensures r == NewRound(db.commitments[cid], cid, key, plan.n, due, rows)
  {
    FitsOpens(db, user, game, key, cid, input, env, plan, due, rows);
    NormalizedFits(game, input);
    w := Apply(plan.before, 0 - plan.n.totalStake).value;
    r := NewRound(db.commitments[cid], cid, key, plan.n, due, rows);
    OpenedIdIsNew(db, w, r);
    ApplyFacts(plan.before, 0 - plan.n.totalStake);
  }

  lemma OpenedRow(db: Db, after: Db, user: User, game: Game, key: string, cid: Id, input: Input, plan: Plan, w: Wallet,
                  r: Round)
    requires Opening(db, user, game, key, cid, input, plan, w, r)
    requires db.commitments[cid].roundId in after.rounds && KeepsTerms(r, after.rounds[db.commitments[cid].roundId])
    ensures NewRow(db, after, user, game, key, cid, input, db.commitments[cid].roundId)
  {
  }

  /** A deal that ends at once is settled for what the engine says plus the fair return. */
  lemma DealSettles(db: Db, user: User, key: string, cid: Id, input: Input, env: Env, deal: Play21)
    requires Inv(db) && deal.settled && deal.payout >= 0 && RoundByKey(db, user, Blackjack, key).None?
    requires CreateBlackjack(db, user, key, cid, input, env, deal).Ok?
    ensures var (after, shown) := CreateBlackjack(db, user, key, cid, input, env, deal).value; var id := shown.id;
            && NewRow(db, after, user, Blackjack, key, cid, input, id)
            && shown == Shown(id, after.rounds[id], Hand) && after.actions == db.actions
            && var c, base := db.commitments[cid], Normalize(Blackjack, input).value.base;
               SettledAs(db, after, env, id, user, base, base, deal.payout,
                         FairReturn.Bonus(c.binding.fairRules, base, c.draw))
  {
    var plan, mid := CheckedDeal(db, user, key, cid, input, env, deal);
    var w, r := FitsOpening(mid, user, Blackjack, key, cid, input, env, plan, deal.autoResolveAt, NoRows);
    DealtSettles(mid, user, key, cid, input, env, plan, deal, w, r);
    var (after, id) := Deal(mid, cid, key, plan, env, deal).value;
    SettledBefore(db, mid, after, env, id, user, plan.n.base, plan.n.base, deal.payout,
                  FairReturn.Bonus(db.commitments[cid].binding.fairRules, plan.n.base, db.commitments[cid].draw));
  }

  /** The client seeds have no part in a settlement. */
  lemma SettledBefore(db: Db, mid: Db, after: Db, env: Env, id: Id, user: User, stake: int, taken: int, gross: int,
                      fair: int)
    requires mid == db.(prefs := mid.prefs) && SettledAs(mid, after, env, id, user, stake, taken, gross, fair)
    ensures SettledAs(db, after, env, id, user, stake, taken, gross, fair)
  {
  }

  /** An accepted new deal is its part after the checks, on the same rows with the client seed noted. */
  lemma CheckedDeal(db: Db, user: User, key: string, cid: Id, input: Input, env: Env, deal: Play21)
    returns (plan: Plan, mid: Db)
    requires Inv(db) && RoundByKey(db, user, Blackjack, key).None?
    requires CreateBlackjack(db, user, key, cid, input, env, deal).Ok?
    ensures Inv(mid) && Fits(mid, user, Blackjack, key, cid, input, env, plan)
    ensures mid == db.(prefs := mid.prefs) && Deal(mid, cid, key, plan, env, deal).Ok?
    ensures var (after, id) := Deal(mid, cid, key, plan, env, deal).value;
            CreateBlackjack(db, user, key, cid, input, env, deal) == Ok((after, Shown(id, after.rounds[id], Hand)))
  {
    DealCheckForm(db, user, key, cid, input, env, deal);
    FreshWithoutKey(db, user, Blackjack, key, cid, input, env);
    plan := Preflight(db, user, Blackjack, key, cid, input, env).value.plan;
    PreflightFits(db, user, Blackjack, key, cid, input, env);
    var p := PreferenceOf(db, user, Blackjack, env);
    mid := WithPreference(db, user, Blackjack, p);
    PreferenceKeeps(db, user, Blackjack, p);
    FitsAfterPreference(db, user, Blackjack, key, cid, input, env, plan, p);
  }

  /** Without a stored key, what passes the checks is new. */
  lemma FreshWithoutKey(db: Db, user: User, game: Game, key: string, cid: Id, input: Input, env: Env)
    requires RoundByKey(db, user, game, key).None? && Preflight(db, user, game, key, cid, input, env).Ok?
    ensures Preflight(db, user, game, key, cid, input, env).value.Fresh?
  {
  }

  lemma DealtSettles(db: Db, user: User, key: string, cid: Id, input: Input, env: Env, plan: Plan, deal: Play21,
                     w: Wallet, r: Round)
    requires Opening(db, user, Blackjack, key, cid, input, plan, w, r) && r.rows == NoRows
    requires r.autoResolveAt == deal.autoResolveAt
    requires deal.settled && deal.payout >= 0 && Deal(db, cid, key, plan, env, deal).Ok?
    ensures var (after, id) := Deal(db, cid, key, plan, env, deal).value;
            && NewRow(db, after, user, Blackjack, key, cid, input, id) && after.actions == db.actions
            && var c := db.commitments[cid];
               SettledAs(db, after, env, id, user, plan.n.base, plan.n.base, deal.payout,
                         FairReturn.Bonus(c.binding.fairRules, plan.n.base, c.draw))
  {
    var id, started := db.commitments[cid].roundId, OpenRound(db, w, r);
    DealForm(db, cid, key, plan, env, deal);
    DealId(db, cid, key, plan, env, deal);
    FinishSettles(started, id, deal.payout, env);
    var after := Finish(started, id, deal.payout, env).value.0;
    OpenedRow(db, after, user, Blackjack, key, cid, input, plan, w, r);
    OneStake(Blackjack, input);
    OpenedSettles(db, w, r, after, env, deal.payout, FairDue(started, id));
  }

  lemma DealId(db: Db, cid: Id, key: string, plan: Plan, env: Env, deal: Play21)
    requires cid in db.commitments && Deal(db, cid, key, plan, env, deal).Ok?
    ensures Deal(db, cid, key, plan, env, deal).value.1 == db.commitments[cid].roundId
  {
  }

  lemma OneStake(game: Game, input: Input)
    requires Normalize(game, input).Ok? && game != Summon
    ensures Normalize(game, input).value.totalStake == Normalize(game, input).value.base
  {
  }

  /** A deal that goes on takes exactly the wager and waits, its two jobs pending. */
  lemma DealLeavesOpen(db: Db, user: User, key: string, cid: Id, input: Input, env: Env, deal: Play21)
    requires Inv(db) && !deal.settled && RoundByKey(db, user, Blackjack, key).None?
    requires CreateBlackjack(db, user, key, cid, input, env, deal).Ok?
    ensures var (after, shown) := CreateBlackjack(db, user, key, cid, input, env, deal).value;
            && shown == Shown(shown.id, after.rounds[shown.id], Hand)
            && DealtOpen(db, after, user, key, cid, input, env, deal, shown.id)
  {
    var plan, mid := CheckedDeal(db, user, key, cid, input, env, deal);
    var w, r := FitsOpening(mid, user, Blackjack, key, cid, input, env, plan, deal.autoResolveAt, NoRows);
    OpenDeal(mid, user, key, cid, input, env, plan, deal, w, r);
  }

  predicate Untouched(r: Round, due: int) {
    && r.phase == PlayerTurn && r.stake == r.initial && r.payout == 0 && r.withheld == 0 && r.fair == 0
    && r.autoResolveAt == due && r.version == 1
  }

  ghost predicate DealtOpen(db: Db, after: Db, user: User, key: string, cid: Id, input: Input, env: Env, deal: Play21,
                            id: Id) {
    && NewRow(db, after, user, Blackjack, key, cid, input, id) && user in db.wallets
    && OnlyTouches(db, after, user, id) && OnlyCommitment(db, after, cid, Consumed)
    && Booked(db.wallets[user], after.wallets[user], Normalize(Blackjack, input).value.base, 0)
    && Untouched(after.rounds[id], deal.autoResolveAt)
    && after.jobs == db.jobs[(id, AutoResolve) := Job(env.jobIds.0, Pending, deal.autoResolveAt)]
                            [(id, Recovery) := Job(env.jobIds.1, Pending, env.now)]
    && after.supply == db.supply && after.actions == db.actions
  }

  lemma OpenDeal(db: Db, user: User, key: string, cid: Id, input: Input, env: Env, plan: Plan, deal: Play21,
                 w: Wallet, r: Round)
    requires Opening(db, user, Blackjack, key, cid, input, plan, w, r) && r.rows == NoRows
    requires r.autoResolveAt == deal.autoResolveAt && !deal.settled && Deal(db, cid, key, plan, env, deal).Ok?
    ensures var (after, id) := Deal(db, cid, key, plan, env, deal).value;
            DealtOpen(db, after, user, key, cid, input, env, deal, id)
  {
    DealForm(db, cid, key, plan, env, deal);
    DealId(db, cid, key, plan, env, deal);
    OneStake(Blackjack, input);
    OpenedRow(db, Deal(db, cid, key, plan, env, deal).value.0, user, Blackjack, key, cid, input, plan, w, r);
  }

  // ------------------------------------------------------------------ jobs

  /** A pending job of a hand whose time has come. */
  predicate Ripe(db: Db, id: Id, kind: JobKind, now: int) {
    && id in db.rounds && db.rounds[id].game == Blackjack && (id, kind) in db.jobs
    && db.jobs[(id, kind)].status == Pending && db.jobs[(id, kind)].runAt <= now
  }

  /** The hand's player has it stood by the system, each stand an action with the final row as its answer. */
  ghost predicate Stands(db: Db, after: Db, user: User, id: Id, ids: seq<Id>, version: nat) {
    && id in after.rounds && after.rounds[id].version == version + |ids|
    && (forall i :: 0 <= i < |ids| ==>
          && ids[i] in after.actions
          && after.actions[ids[i]] == ActionRow(user, id, ActionInput(ids[i], SystemAutoStand, 0, version + i),
                                                Some(after.rounds[id])))
    && (forall a :: a !in ids ==> (a in after.actions <==> a in db.actions))
    && (forall a :: a in db.actions ==> a in after.actions && after.actions[a] == db.actions[a])
  }

  /** A job that is not ripe does nothing. A ripe one of a sound hand: the recovery job, or any job of a settled hand,
      is done; the auto-resolve job of an open hand waits for the hand's deadline, and past it settles the hand for what
      the stands come to. */
  lemma JobActs(db: Db, id: Id, kind: JobKind, env: Env, payout: int, ids: seq<Id>)
    requires Inv(db) && payout >= 0 && ProcessJob(db, id, kind, env, payout, ids).Ok?
    ensures var after := ProcessJob(db, id, kind, env, payout, ids).value.0;
            && (!Ripe(db, id, kind, env.now) ==> after == db)
            && (Ripe(db, id, kind, env.now) && env.recovered && !db.rounds[id].review ==>
                  var r, job := db.rounds[id], db.jobs[(id, kind)];
                  if kind == Recovery || r.phase == Settled
                    then after == db.(jobs := db.jobs[(id, kind) := job.(status := Done)])
                  else if env.now < r.autoResolveAt
                    then after == db.(jobs := db.jobs[(id, kind) := job.(runAt := r.autoResolveAt)])
                  else
                    && r.commitment in db.commitments && Stands(db, after, r.user, id, ids, r.version)
                    && var c := db.commitments[r.commitment];
                       SettledAs(db, after, env, id, r.user, r.stake, 0, payout,
                                 FairReturn.Bonus(c.binding.fairRules, r.initial, c.draw)))
  {
    var check := JobPreflight(db, id, kind, env).value;
    JobCases(db, id, kind, env, payout, ids);
    if check.Settle? { ResolveSettlesAs(db, id, env, payout, ids); }
  }

  /** Which branch a job takes, and what it leaves. */
  lemma JobCases(db: Db, id: Id, kind: JobKind, env: Env, payout: int, ids: seq<Id>)
    requires ProcessJob(db, id, kind, env, payout, ids).Ok?
    ensures JobPreflight(db, id, kind, env).Ok?
    ensures var check, after := JobPreflight(db, id, kind, env).value, ProcessJob(db, id, kind, env, payout,
                                                                                  ids).value.0;
            && (check.Skip? <==> !Ripe(db, id, kind, env.now)) && (check.Skip? ==> after == db)
            && (!check.Skip? && env.recovered && !db.rounds[id].review ==>
                  var r := db.rounds[id];
                  && (check.Close? <==> kind == Recovery || r.phase == Settled)
                  && (check.Postpone? <==> kind == AutoResolve && r.phase == PlayerTurn && env.now < r.autoResolveAt)
                  && (check.Settle? <==> kind == AutoResolve && r.phase == PlayerTurn && env.now >= r.autoResolveAt))
            && (check.Close? ==> after == db.(jobs := db.jobs[(id, kind) := db.jobs[(id, kind)].(status := Done)]))
            && (check.Postpone? ==>
                  var due := db.jobs[(id, kind)].(runAt := db.rounds[id].autoResolveAt);
                  after == db.(jobs := db.jobs[(id, kind) := due]))
            && (check.Settle? ==>
                  && FreshActions(db, ids) && MayFinish(db, id) && Resolve(db, id, env, payout, ids).Ok?
                  && after == Resolve(db, id, env, payout, ids).value.0)
  {
  }

  lemma ResolveSettlesAs(db: Db, id: Id, env: Env, payout: int, ids: seq<Id>)
    requires MayFinish(db, id) && WalletOk(db.wallets[db.rounds[id].user]) && payout >= 0 && FreshActions(db, ids)
    requires Resolve(db, id, env, payout, ids).Ok?
    ensures var r, after := db.rounds[id], Resolve(db, id, env, payout, ids).value.0;
            && SettledAs(db, after, env, id, r.user, r.stake, 0, payout, FairDue(db, id))
            && Stands(db, after, r.user, id, ids, r.version)
  {
    var r, stood := db.rounds[id], Stood(db, id, |ids|);
    FinishSettles(stood, id, payout, env);
    var done := Finish(stood, id, payout, env).value.0;
    StoodSettlesAs(db, id, |ids|, done, env, payout, FairDue(db, id));
    ActionsApart(db, done, env, id, r.user, r.stake, 0, payout, FairDue(db, id),
                 WithSystemActions(done.actions, r.user, id, ids, r.version, done.rounds[id]));
    StandsRecorded(db, done, id, ids);
  }

  /** A raised version has no part in a settlement. */
  lemma StoodSettlesAs(db: Db, id: Id, stands: nat, after: Db, env: Env, gross: int, fair: int)
    requires id in db.rounds && db.rounds[id].user in db.wallets
    requires var r := db.rounds[id]; SettledAs(Stood(db, id, stands), after, env, id, r.user, r.stake, 0, gross, fair)
    ensures var r := db.rounds[id]; SettledAs(db, after, env, id, r.user, r.stake, 0, gross, fair)
  {
    StoodAssets(db, id, stands, env);
    StoodTouches(db, id, stands, after);
  }

  lemma StoodTouches(db: Db, id: Id, stands: nat, after: Db)
    requires id in db.rounds && OnlyTouches(Stood(db, id, stands), after, db.rounds[id].user, id)
    ensures OnlyTouches(db, after, db.rounds[id].user, id)
  {
    assert Stood(db, id, stands).rounds.Keys == db.rounds.Keys;
  }

  lemma StoodAssets(db: Db, id: Id, stands: nat, env: Env)
    requires id in db.rounds && db.rounds[id].user in db.wallets
    ensures Assets(Stood(db, id, stands), db.rounds[id].user, env) == Assets(db, db.rounds[id].user, env)
  {
    SumOfUpdate(db.rounds, OpenStakeOf(db.rounds[id].user), id, Stood(db, id, stands).rounds[id]);
  }

  lemma StandsRecorded(db: Db, done: Db, id: Id, ids: seq<Id>)
    requires id in db.rounds && id in done.rounds && done.actions == db.actions && FreshActions(db, ids)
    requires done.rounds[id].version == db.rounds[id].version + |ids|
    ensures var r := db.rounds[id];
            var actions := WithSystemActions(done.actions, r.user, id, ids, r.version, done.rounds[id]);
            Stands(db, done.(actions := actions), r.user, id, ids, r.version)
  {
    var r := db.rounds[id];
    StandsListed(done.actions, r.user, id, ids, r.version, done.rounds[id]);
  }

  /** Each stand is stored under its own id with the next version, and nothing else is. */
  lemma {:induction false} StandsListed(actions: map<Id, ActionRow>, user: User, id: Id, ids: seq<Id>, version: nat,
                                        shown: Round)
    requires forall i, j :: 0 <= i < j < |ids| ==> ids[i] != ids[j]
    ensures var after := WithSystemActions(actions, user, id, ids, version, shown);
            && (forall i :: 0 <= i < |ids| ==>
                  && ids[i] in after
                  && after[ids[i]] == ActionRow(user, id, ActionInput(ids[i], SystemAutoStand, 0, version + i),
                                                Some(shown)))
            && (forall a :: a !in ids ==> (a in after <==> a in actions) && (a in actions ==> after[a] == actions[a]))
    decreases |ids|
  {
    if ids != [] {
      var row := ActionRow(user, id, ActionInput(ids[0], SystemAutoStand, 0, version), Some(shown));
      StandsListed(actions[ids[0] := row], user, id, ids[1..], version + 1, shown);
      var after := WithSystemActions(actions, user, id, ids, version, shown);
      forall i | 0 <= i < |ids|
        ensures ids[i] in after
        ensures after[ids[i]] == ActionRow(user, id, ActionInput(ids[i], SystemAutoStand, 0, version + i), Some(shown))
      {
        if i > 0 { assert ids[1..][i - 1] == ids[i]; } else { assert ids[0] !in ids[1..]; }
      }
    }
  }

  // ------------------------------------------------------------ fast games

  /** A round of an outcome is settled for its payoff on the base wager. */
  lemma OutcomeSettles(db: Db, user: User, game: Game, key: string, cid: Id, input: Input, env: Env, plan: Plan,
                       o: Outcome, w: Wallet, r: Round)
    requires ThreeDice(o.typed) && Opening(db, user, game, key, cid, input, plan, w, r)
    requires r.autoResolveAt == 0 && r.rows == Stored(o) && plan.n.base * o.payoff.payout >= 0
    requires env.economy.Some? ==> plan.total == Assets(db, user, env)
    requires SettleAs(db, cid, key, plan, env, Some(o)).Ok?
    ensures var after := SettleAs(db, cid, key, plan, env, Some(o)).value.0;
            && NewRow(db, after, user, game, key, cid, input, db.commitments[cid].roundId)
            && after.actions == db.actions
            && SettledAs(db, after, env, db.commitments[cid].roundId, user, plan.n.totalStake, plan.n.totalStake,
                         plan.n.base * o.payoff.payout, 0)
  {
    var id, started, gross := db.commitments[cid].roundId, OpenRound(db, w, r), plan.n.base * o.payoff.payout;
    SettleForm(db, cid, key, plan, env, o, w, r);
    var p := Pay(w, env, plan.total, plan.n.totalStake, gross).value;
    PayExact(w, env, plan.total, plan.n.totalStake, gross);
    PayFacts(w, env, plan.total, plan.n.totalStake, gross);
    ClosedExactly(started, p.paid, id, p.payout, p.withheld);
    OpenedAssets(db, w, r, env);
    var after := CloseRound(started, p.paid, id, p.payout, p.withheld);
    OpenedRow(db, after, user, game, key, cid, input, plan, w, r);
    OpenedSettles(db, w, r, after, env, gross, 0);
  }

  lemma SettleForm(db: Db, cid: Id, key: string, plan: Plan, env: Env, o: Outcome, w: Wallet, r: Round)
    requires cid in db.commitments && ThreeDice(o.typed) && Apply(plan.before, 0 - plan.n.totalStake) == Ok(w)
    requires r == NewRound(db.commitments[cid], cid, key, plan.n, 0, Stored(o))
    requires SettleAs(db, cid, key, plan, env, Some(o)).Ok?
    ensures Pay(w, env, plan.total, plan.n.totalStake, plan.n.base * o.payoff.payout).Ok?
    ensures var p := Pay(w, env, plan.total, plan.n.totalStake, plan.n.base * o.payoff.payout).value;
            SettleAs(db, cid, key, plan, env, Some(o)).value.0
              == CloseRound(OpenRound(db, w, r), p.paid, db.commitments[cid].roundId, p.payout, p.withheld)
  {
  }

  /** An accepted new create of a fast game: the new row, settled for what it says, shown as stored with its outcome. */
  lemma FastSettles(db: Db, user: User, game: Game, key: string, cid: Id, input: Input, env: Env, source: Source)
    requires Inv(db) && game != Blackjack && ValidConfig(game, env.config) && RoundByKey(db, user, game, key).None?
    requires CreateFast(db, user, game, key, cid, input, env, source).Ok?
    ensures var (after, shown) := CreateFast(db, user, game, key, cid, input, env, source).value;
            && NewRow(db, after, user, game, key, cid, input, shown.id) && after.actions == db.actions
            && shown.round == after.rounds[shown.id]
            && var n := Normalize(game, input).value;
               var o := Derived(game, n.input, env.config, source);
               && o.Some? && shown.view == Fast(o.value)
               && SettledAs(db, after, env, shown.id, user, n.totalStake, n.totalStake, n.base * o.value.payoff.payout,
                            0)
  {
    CreateForm(db, user, game, key, cid, input, env, source);
    FreshWithoutKey(db, user, game, key, cid, input, env);
    FastPaysOutcome(db, user, game, key, cid, input, env, source);
    var plan := Preflight(db, user, game, key, cid, input, env).value.plan;
    PreflightFits(db, user, game, key, cid, input, env);
    OutcomePayable(game, input, env.config, source);
    var o := Derived(game, plan.n.input, env.config, source).value;
    FreshSettles(db, user, game, key, cid, input, env, plan, source, o);
  }

  lemma FreshOpening(db: Db, user: User, game: Game, key: string, cid: Id, input: Input, env: Env, plan: Plan,
                     o: Outcome)
    returns (mid: Db, w: Wallet, r: Round)
    requires Inv(db) && Fits(db, user, game, key, cid, input, env, plan) && Payable(game, plan.n, o)
    ensures mid == WithPreference(db, user, game, PreferenceOf(db, user, game, env))
    ensures Opening(mid, user, game, key, cid, input, plan, w, r) && r.autoResolveAt == 0 && r.rows == Stored(o)
    ensures env.economy.Some? ==> plan.total == Assets(mid, user, env)
  {
    var p := PreferenceOf(db, user, game, env);
    mid := WithPreference(db, user, game, p);
    PreferenceKeeps(db, user, game, p);
    FitsAfterPreference(db, user, game, key, cid, input, env, plan, p);
    w, r := FitsOpening(mid, user, game, key, cid, input, env, plan, 0, Stored(o));
  }

  lemma FreshSettles(db: Db, user: User, game: Game, key: string, cid: Id, input: Input, env: Env, plan: Plan,
                     source: Source, o: Outcome)
    requires Inv(db) && Fits(db, user, game, key, cid, input, env, plan)
    requires Derived(game, plan.n.input, env.config, source) == Some(o) && Payable(game, plan.n, o)
    requires CreateFresh(db, user, game, key, cid, plan, env, source).Ok?
    ensures var after, id := CreateFresh(db, user, game, key, cid, plan, env,
                                         source).value.0, db.commitments[cid].roundId;
            && NewRow(db, after, user, game, key, cid, input, id) && after.actions == db.actions
            && SettledAs(db, after, env, id, user, plan.n.totalStake, plan.n.totalStake, plan.n.base * o.payoff.payout,
                         0)
  {
    var mid, w, r := FreshOpening(db, user, game, key, cid, input, env, plan, o);
    OutcomeSettles(mid, user, game, key, cid, input, env, plan, o, w, r);
    SettledBefore(db, mid, SettleAs(mid, cid, key, plan, env, Some(o)).value.0, env, db.commitments[cid].roundId, user,
                  plan.n.totalStake, plan.n.totalStake, plan.n.base * o.payoff.payout, 0);
  }

  /** The wager of an accepted request in units, per draw. */
  lemma BaseOfText(game: Game, input: Input)
    requires Normalize(game, input).Ok?
    ensures var text, n := Amount(game, input), Normalize(game, input).value;
            && AllDigits(text) && n.base == Value(text) * UNITS_PER_CHIP
            && n.totalStake == n.base * (if game == Summon && input.mode == "TENFOLD" then 10 else 1)
            && n.input.choice == input.choice && n.input.mode == input.mode
            && (game == Dice ==> input.choice == "BIG" || input.choice == "SMALL")
            && (game == Summon ==> input.mode == "SINGLE" || input.mode == "TENFOLD")
  {
  }

  /** Three faces against a bet on the side `big`: double when they are on it and not all equal; when all are equal, the
      wager back under the push rule; nothing otherwise. */
  function DicePayout(dice: seq<nat>, big: bool, push: bool, base: int): int
    requires |dice| == 3
  {
    if dice[0] == dice[1] && dice[1] == dice[2] then (if push then base else 0)
    else if big then (if dice[0] + dice[1] + dice[2] >= 11 then 2 * base else 0)
    else if dice[0] + dice[1] + dice[2] <= 10 then 2 * base
    else 0
  }

  lemma RolledPays(source: Source, push: bool, input: Input, base: int)
    requires input.choice == "BIG" || input.choice == "SMALL"
    requires Derived(Dice, input, DiceConfig(push), source).Some?
    ensures var o := Derived(Dice, input, DiceConfig(push), source).value;
            && o.typed.DiceResult? && SeedDice(source, o.typed.dice, o.typed.total)
            && (o.typed.choice == Big <==> input.choice == "BIG")
            && (o.typed.choice == Small <==> input.choice == "SMALL")
            && base * o.payoff.payout == DicePayout(o.typed.dice, input.choice == "BIG", push, base)
  {
  }

  /** The faces are the seed's three draws. */
  predicate SeedDice(source: Source, dice: seq<nat>, total: nat) {
    && |dice| == 3 && dice[0] == source("dice:d1", 6) + 1 && dice[1] == source("dice:d2", 6) + 1
    && dice[2] == source("dice:d3", 6) + 1 && total == dice[0] + dice[1] + dice[2]
  }

  /** A dice player is shown the seed's faces and the side asked for, and paid by exactly those. */
  lemma DicePays(db: Db, user: User, key: string, cid: Id, input: Input, env: Env, source: Source)
    requires Inv(db) && ValidConfig(Dice, env.config) && RoundByKey(db, user, Dice, key).None?
    requires CreateFast(db, user, Dice, key, cid, input, env, source).Ok?
    ensures var (after, shown) := CreateFast(db, user, Dice, key, cid, input, env, source).value;
            && AllDigits(input.wager) && NewRow(db, after, user, Dice, key, cid, input, shown.id)
            && shown.round == after.rounds[shown.id] && shown.view.Fast? && shown.view.outcome.typed.DiceResult?
            && var t, base := shown.view.outcome.typed, Value(input.wager) * UNITS_PER_CHIP;
               && (input.choice == "BIG" || input.choice == "SMALL")
               && (t.choice == Big <==> input.choice == "BIG") && (t.choice == Small <==> input.choice == "SMALL")
               && SeedDice(source, t.dice, t.total)
               && SettledAs(db, after, env, shown.id, user, base, base,
                            DicePayout(t.dice, input.choice == "BIG", env.config.pushOnTriple, base), 0)
  {
    FastSettles(db, user, Dice, key, cid, input, env, source);
    BaseOfText(Dice, input);
    RolledPays(source, env.config.pushOnTriple, Normalize(Dice, input).value.input, Normalize(Dice, input).value.base);
  }

  /** The multiple a symbol of a scratch ticket stands for. */
  function FaceValue(symbol: string): int {
    match symbol
    case "P1" => 1
    case "P2" => 2
    case "P3" => 3
    case "P5" => 5
    case "P10" => 10
    case "P25" => 25
    case "P100" => 100
    case _ => 0
  }

  predicate MatchingCell(cells: seq<ScratchCard.RawCell>, i: nat) { i < |cells| && cells[i].matching }

  /** A ticket pays by its matching cells: all of one symbol, and its value; none on a ticket that pays nothing. */
  ghost predicate TicketSays(cells: seq<ScratchCard.RawCell>, multiple: int) {
    && |cells| == 9
    && (forall i: nat :: MatchingCell(cells, i) ==> multiple == FaceValue(cells[i].symbol) > 0)
    && ((forall i: nat :: !MatchingCell(cells, i)) ==> multiple == 0)
  }

  /** The row of the table that the sample falls on. */
  ghost predicate Falls(prizes: seq<Prize>, sample: nat, p: Prize) {
    exists h :: 0 <= h < |prizes| && prizes[h] == p && Before(prizes, h) <= sample < Before(prizes, h + 1)
  }

  lemma SampleFalls(version: string, prizes: seq<Prize>, frozen: seq<Prize>, frozenVersion: string, sample: nat)
    requires Accepted(version, prizes, frozen, frozenVersion) && sample < WEIGHT_TOTAL
    ensures PrizeAtSpec(prizes, sample).Ok? && Falls(prizes, sample, PrizeAtSpec(prizes, sample).value)
  {
    SamplingTotal(version, prizes, frozen, frozenVersion, sample);
    var h := PrizeTable.Hit(prizes, 0, 0, sample);
    HitExactly(prizes, h, sample);
  }

  /** Any accepted layout of a tier says the multiple the tier stands for. */
  lemma LayoutSays(tier: string, layout: seq<ScratchCard.Cell>)
    requires ScratchCard.LayoutAccepted(tier, layout)
    ensures TicketSays(ScratchCard.Written(layout), ScratchCard.ScratchTier(tier).value.0)
  {
    var cells, winning := ScratchCard.Written(layout), ScratchCard.ScratchTier(tier).value.1;
    forall i: nat | MatchingCell(cells, i)
      ensures ScratchCard.ScratchTier(tier).value.0 == FaceValue(cells[i].symbol) > 0
    {
      assert ScratchCard.MarkedFor(layout[i], winning);
      TierValue(tier, layout[i].symbol);
    }
    if winning.Some? {
      WinningShown(layout, winning.value);
    } else {
      LossPaysNothing(tier);
    }
  }

  lemma TierValue(tier: string, symbol: ScratchCard.Symbol)
    requires ScratchCard.ScratchTier(tier).Some? && ScratchCard.ScratchTier(tier).value.1 == Some(symbol)
    ensures ScratchCard.ScratchTier(tier).value.0 == FaceValue(ScratchCard.SymbolText(symbol)) > 0
  {
  }

  lemma LossPaysNothing(tier: string)
    requires ScratchCard.ScratchTier(tier).Some? && ScratchCard.ScratchTier(tier).value.1.None?
    ensures ScratchCard.ScratchTier(tier).value.0 == 0
  {
  }

  lemma WinningShown(layout: seq<ScratchCard.Cell>, w: ScratchCard.Symbol)
    requires ScratchCard.CountsFit(multiset(ScratchCard.Symbols(layout)), Some(w))
    requires forall i :: 0 <= i < |layout| ==> ScratchCard.MarkedFor(layout[i], Some(w))
    ensures exists i: nat :: MatchingCell(ScratchCard.Written(layout), i)
  {
    assert w in multiset(ScratchCard.Symbols(layout));
    var i :| 0 <= i < |layout| && ScratchCard.Symbols(layout)[i] == w;
    assert ScratchCard.MarkedFor(layout[i], Some(w));
    assert MatchingCell(ScratchCard.Written(layout), i);
  }

  lemma ScratchedPays(source: Source, c: Config, input: Input)
    requires ValidConfig(Scratch, c) && Derived(Scratch, input, c, source).Some?
    ensures var o := Derived(Scratch, input, c, source).value;
            && o.typed.TicketResult? && TicketSays(o.typed.cells, o.payoff.payout)
            && exists p :: Falls(c.prizes, source("scratch:prize", 100_000), p) && p.tier == o.typed.tier
                           && p.multiplier == o.payoff.payout
  {
    var sample := source("scratch:prize", 100_000);
    var p := PrizeAtSpec(c.prizes, sample).value;
    SampleFalls(c.version, c.prizes, ScratchFrozen(), "scratch-prize-v1", sample);
    ScratchCard.SampledTicketKnown(c.version, c.prizes, sample);
    var first, second, draws := source("scratch:filler", 7), source("scratch:filler", 6), LayoutDraws(source);
    ScratchCard.DealtAccepted(p.tier, first, second, draws);
    LayoutSays(p.tier, ScratchCard.Ticket(p.tier, first, second, draws).value);
  }

  /** A ticket pays what its cells say, which is the row of the table that the seed's sample falls on. */
  lemma TicketPays(db: Db, user: User, key: string, cid: Id, input: Input, env: Env, source: Source)
    requires Inv(db) && ValidConfig(Scratch, env.config) && RoundByKey(db, user, Scratch, key).None?
    requires CreateFast(db, user, Scratch, key, cid, input, env, source).Ok?
    ensures var (after, shown) := CreateFast(db, user, Scratch, key, cid, input, env, source).value;
            && AllDigits(input.wager) && NewRow(db, after, user, Scratch, key, cid, input, shown.id)
            && shown.round == after.rounds[shown.id] && shown.view.Fast? && shown.view.outcome.typed.TicketResult?
            && var t, base := shown.view.outcome.typed, Value(input.wager) * UNITS_PER_CHIP;
               exists p ::
                 && Falls(env.config.prizes, source("scratch:prize", 100_000), p) && p.tier == t.tier
                 && TicketSays(t.cells, p.multiplier)
                 && SettledAs(db, after, env, shown.id, user, base, base, base * p.multiplier, 0)
  {
    FastSettles(db, user, Scratch, key, cid, input, env, source);
    BaseOfText(Scratch, input);
    ScratchedPays(source, env.config, Normalize(Scratch, input).value.input);
  }

  /** Each draw is the row of the table that its own sample falls on. */
  ghost predicate SeedDraws(source: Source, prizes: seq<Prize>, draws: seq<Draw>) {
    forall i :: 0 <= i < |draws| ==>
      draws[i].index == i + 1
      && exists p :: Falls(prizes, source(DrawDomain(i + 1), 100_000), p)
                     && p.tier == draws[i].tier && p.multiplier == draws[i].multiplier
  }

  lemma {:induction false} DrawsFall(source: Source, version: string, prizes: seq<Prize>, n: nat)
    requires Accepted(version, prizes, SummonFrozen(), "summon-prize-v1")
    requires forall i :: 1 <= i <= n ==> DrawPrize(source, prizes, i).Ok?
    ensures SeedDraws(source, prizes, DrawsOf(source, prizes, n))
  {
    if n > 0 {
      DrawsFall(source, version, prizes, n - 1);
      SampleFalls(version, prizes, SummonFrozen(), "summon-prize-v1", source(DrawDomain(n), 100_000));
      var draws, before := DrawsOf(source, prizes, n), DrawsOf(source, prizes, n - 1);
      forall i | 0 <= i < n
        ensures draws[i].index == i + 1
        ensures exists p :: Falls(prizes, source(DrawDomain(i + 1), 100_000), p)
                            && p.tier == draws[i].tier && p.multiplier == draws[i].multiplier
      {
        if i < n - 1 { assert draws[i] == before[i]; }
      }
    }
  }

  lemma SummonedPays(source: Source, c: Config, input: Input)
    requires ValidConfig(Summon, c) && Derived(Summon, input, c, source).Some?
    ensures var o := Derived(Summon, input, c, source).value;
            && o.typed.DrawsResult? && |o.typed.draws| == Draws(Summon, input.mode) && o.typed.mode == input.mode
            && SeedDraws(source, c.prizes, o.typed.draws) && o.payoff.payout == SumOfDraws(o.typed.draws)
  {
    DrawsFall(source, c.version, c.prizes, Draws(Summon, input.mode));
    DrawsSum(source, c.prizes, Draws(Summon, input.mode));
  }

  /** A summon pays the sum of its draws, one or ten as asked for, each the row its own sample falls on. */
  lemma DrawsPay(db: Db, user: User, key: string, cid: Id, input: Input, env: Env, source: Source)
    requires Inv(db) && ValidConfig(Summon, env.config) && RoundByKey(db, user, Summon, key).None?
    requires CreateFast(db, user, Summon, key, cid, input, env, source).Ok?
    ensures var (after, shown) := CreateFast(db, user, Summon, key, cid, input, env, source).value;
            && AllDigits(input.baseWager) && NewRow(db, after, user, Summon, key, cid, input, shown.id)
            && shown.round == after.rounds[shown.id] && shown.view.Fast? && shown.view.outcome.typed.DrawsResult?
            && var t, base := shown.view.outcome.typed, Value(input.baseWager) * UNITS_PER_CHIP;
               && (input.mode == "SINGLE" || input.mode == "TENFOLD") && t.mode == input.mode
               && |t.draws| == (if input.mode == "TENFOLD" then 10 else 1)
               && SeedDraws(source, env.config.prizes, t.draws)
               && SettledAs(db, after, env, shown.id, user, base * |t.draws|, base * |t.draws|,
                            base * SumOfDraws(t.draws), 0)
  {
    FastSettles(db, user, Summon, key, cid, input, env, source);
    BaseOfText(Summon, input);
    SummonedPays(source, env.config, Normalize(Summon, input).value.input);
  }
}
