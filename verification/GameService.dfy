/** The game service: every operation works on a private copy of the rows and commits it whole, or leaves the store
    alone. */
module GameService {
  import opened Numbers
  import opened Wrappers
  import opened Wagers
  import opened FastGames
  import opened Outcomes
  import opened GameStore
  import opened GameInvariant
  import opened GameUpdates
  import opened GameTransactions
  import opened GameHistory
  import opened GameReplays
  import FairReturn
  import PayoutCap

  /** What the caller of a transaction is told. */
  ghost function Answer<T>(tx: Tx<T>): Result<T, Error> { if tx.Ok? then Ok(tx.value.1) else Err(tx.error) }

  // --------------------------------------------------------------- queries

  method FindRound(db: Db, user: User, game: Game, key: string) returns (r: Option<Id>)
    requires KeysDistinct(db)
    ensures r == RoundByKey(db, user, game, key)
  {
    if exists id :: id in db.rounds && InGame(db.rounds[id], user, game) && db.rounds[id].key == key {
      var id :| id in db.rounds && InGame(db.rounds[id], user, game) && db.rounds[id].key == key;
      KeyFound(db, id, user, game, key);
      return Some(id);
    }
    assert forall id :: !HasKey(db, id, user, game, key);
    r := None;
  }

  /** What the queries of one user and game rely on: single answers and a cursor in range. */
  ghost predicate SlotOk(db: Db, user: User, game: Game) {
    && (forall c: Id, d: Id :: HoldsAvailable(db, c, user, game) && HoldsAvailable(db, d, user, game) ==> c == d)
    && CursorOf(db, user, game).next <= MAX_INT64
  }

  ghost predicate OneLatest(db: Db, user: User, game: Game) {
    forall i: Id, j: Id :: IsLatest(db, i, user, game) && IsLatest(db, j, user, game) ==> i == j
  }

  lemma InvSlots(db: Db, user: User, game: Game)
    requires CommitmentsOk(db)
    ensures SlotOk(db, user, game)
  {
    forall c: Id, d: Id | HoldsAvailable(db, c, user, game) && HoldsAvailable(db, d, user, game) ensures c == d {
      AvailableUnique(db, c, d);
    }
  }

  lemma InvLatest(db: Db, user: User, game: Game)
    requires CommitmentsOk(db) && LinksOk(db)
    ensures OneLatest(db, user, game)
  {
    forall i: Id, j: Id | IsLatest(db, i, user, game) && IsLatest(db, j, user, game) ensures i == j {
      LatestUnique(db, i, j, user, game);
    }
  }

  lemma SlotFrame(db: Db, db': Db, user: User, game: Game)
    requires SlotOk(db, user, game) && db'.commitments == db.commitments && db'.cursors == db.cursors
    ensures SlotOk(db', user, game)
  {
    forall c: Id ensures HoldsAvailable(db', c, user, game) == HoldsAvailable(db, c, user, game) {}
  }

  method FindAvailable(db: Db, user: User, game: Game) returns (r: Option<Id>)
    requires SlotOk(db, user, game)
    ensures r == AvailableCommitment(db, user, game)
  {
    if c :| c in db.commitments && HoldsAvailable(db, c, user, game) {
      return Some(c);
    }
    assert forall c :: !HoldsAvailable(db, c, user, game);
    r := None;
  }

  /** Picks the greatest nonce by scanning the user's rounds. */
  method FindLatest(db: Db, user: User, game: Game) returns (r: Option<Id>)
    requires OneLatest(db, user, game)
    ensures r == LatestRound(db, user, game)
  {
    r := None;
    var rest := db.rounds.Keys;
    while rest != {}
      invariant rest <= db.rounds.Keys
      invariant r.Some? ==> r.value in db.rounds && InGame(db.rounds[r.value], user, game)
      invariant forall k :: k in db.rounds && k !in rest && InGame(db.rounds[k], user, game) ==>
                  r.Some? && db.rounds[k].nonce <= db.rounds[r.value].nonce
      decreases rest
    {
      var k :| k in rest;
      if InGame(db.rounds[k], user, game) && (r.None? || db.rounds[r.value].nonce < db.rounds[k].nonce) {
        r := Some(k);
      }
      rest := rest - {k};
    }
    if r.Some? {
      assert IsLatest(db, r.value, user, game);
    }
  }

  method OpenStakesOf(db: Db, user: User) returns (total: int)
    ensures total == SumOf(db.rounds, OpenStakeOf(user))
  {
    total := 0;
    var rest := db.rounds;
    while rest != map[]
      invariant total + SumOf(rest, OpenStakeOf(user)) == SumOf(db.rounds, OpenStakeOf(user))
      decreases |rest|
    {
      var k :| k in rest;
      SumOfRemove(rest, OpenStakeOf(user), k);
      if rest[k].user == user && rest[k].phase == PlayerTurn {
        total := total + rest[k].stake;
      }
      assert (rest - {k}).Keys == rest.Keys - {k};
      rest := rest - {k};
    }
  }

  method ReadUnifiedAssets(db: Db, user: User, balance: int, env: Env) returns (r: Result<int, Error>)
    ensures r == TotalAssets(db, user, balance, env)
  {
    if !env.healthy {
      return Err(EconomyFault);
    }
    var inFlight := OpenStakesOf(db, user);
    var total := env.otherAssets + balance + inFlight;
    if total > MAX_INT64 {
      return Err(Overflow);
    }
    r := Ok(total);
  }

  method Observe(db: Db, user: User, balance: int, stake: int, env: Env) returns (r: Result<int, Error>)
    ensures r == ObserveEconomy(db, user, balance, stake, env)
  {
    if env.economy.None? {
      return Ok(0);
    }
    if stake > env.economy.value.singleMax {
      return Err(Error.InvalidInput);
    }
    r := ReadUnifiedAssets(db, user, balance, env);
  }

  method IsBlocked(db: Db, user: User, game: Game) returns (r: bool)
    ensures r == Blocked(db, user, game)
  {
    r := exists id :: id in db.rounds && InGame(db.rounds[id], user, game) && Blocking(db.rounds[id]);
    if r {
      var id :| id in db.rounds && InGame(db.rounds[id], user, game) && Blocking(db.rounds[id]);
      assert BlocksGame(db, id, user, game);
    } else {
      assert forall id :: !BlocksGame(db, id, user, game);
    }
  }

  // ----------------------------------------------------------- transaction parts

  method Advance(db: Db, user: User, game: Game, binding: Binding, id: Id, roundId: Id, draw: nat) returns (r: Tx<Id>)
    requires SlotOk(db, user, game)
    ensures r == NextCommitment(db, user, game, binding, id, roundId, draw)
  {
    var held := FindAvailable(db, user, game);
    r := IssueNext(db, user, game, binding, id, roundId, draw, held);
  }

  method IssueNext(db: Db, user: User, game: Game, binding: Binding, id: Id, roundId: Id, draw: nat, held: Option<Id>)
    returns (r: Tx<Id>)
    requires held.Some? ==> held.value in db.commitments
    requires CursorOf(db, user, game).next <= MAX_INT64
    ensures r == IssueFrom(db, held, user, game, binding, id, roundId, draw)
  {
    var commitments, cursors := db.commitments, db.cursors;
    if held.Some? {
      if db.commitments[held.value].binding == binding {
        return Ok((db, held.value));
      }
      commitments := commitments[held.value := commitments[held.value].(state := Invalidated)];
    }
    var cursor := CursorOf(db, user, game);
    if cursor.exhausted {
      return Err(NonceExhausted);
    }
    var next := cursor.next;
    if cursor.next < MAX_INT64 {
      next := next + 1;
    }
    cursors := cursors[(user, game) := Cursor(next, cursor.next == MAX_INT64)];
    if id in db.commitments || exists c :: c in db.commitments && db.commitments[c].roundId == roundId {
      return Err(Collision);
    }
    commitments := commitments[id := Commitment(user, game, cursor.next, roundId, binding, draw, Available)];
    r := Ok((db.(commitments := commitments, cursors := cursors), id));
  }

  /** The checks of a create, in the order they are made. */
  method CheckCreate(db: Db, user: User, game: Game, key: string, cid: Id, input: Input, env: Env)
    returns (r: Result<Check, Error>)
    requires KeysDistinct(db)
    ensures r == Preflight(db, user, game, key, cid, input, env)
  {
    var normalized := Normalize(game, input);
    if normalized.Err? || user == 0 || !ValidKey(key) {
      return Err(Error.InvalidInput);
    }
    var n := normalized.value;
    var known := FindRound(db, user, game, key);
    if known.Some? {
      if db.rounds[known.value].request != n.input {
        return Err(IdempotencyConflict);
      }
      return Ok(Replay(known.value));
    }
    if env.maintenance {
      return Err(Maintenance);
    }
    var blocked := IsBlocked(db, user, game);
    if game == Blackjack && blocked {
      return Err(ActiveRound);
    }
    if env.entry == InMaintenance {
      return Err(Maintenance);
    }
    if env.entry != Play {
      return Err(Error.Unavailable);
    }
    if game == Scratch && blocked {
      return Err(ScratchIncomplete);
    }
    if cid !in db.commitments || db.commitments[cid].user != user || db.commitments[cid].game != game
       || db.commitments[cid].state != Available {
      return Err(CommitmentInvalid);
    }
    if db.commitments[cid].binding != Bound(env, PreferenceOf(db, user, game, env)) {
      return Err(CommitmentInvalid);
    }
    if user !in db.wallets {
      return Err(WalletNotFound);
    }
    var w := db.wallets[user];
    var cap := if env.economy.Some? then Some(env.economy.value.singleMax) else None;
    var fault := Guard(n, w.balance, w.ledgerSeq, w.version, Spare(game), cap);
    if fault.Some? {
      return Err(GuardFault(fault.value));
    }
    var assets := Observe(db, user, w.balance, n.totalStake, env);
    if assets.Err? {
      return Err(assets.error);
    }
    r := Ok(Fresh(Plan(n, w, assets.value)));
  }

  method CheckMove(db: Db, user: User, id: Id, action: ActionInput, env: Env, hand: Option<int>)
    returns (r: Result<MoveCheck, Error>)
    ensures r == MovePreflight(db, user, id, action, env, hand)
  {
    if user == 0 || !PlayerMove(action) {
      return Err(Error.InvalidInput);
    }
    if action.id in db.actions && db.actions[action.id].user == user {
      var row := db.actions[action.id];
      if row.round != id || row.input != action {
        return Err(IdempotencyConflict);
      }
      return Ok(Answered(row.response));
    }
    if id !in db.rounds || db.rounds[id].user != user {
      return Err(NotFound);
    }
    var round := db.rounds[id];
    if round.game != Blackjack {
      return Err(Error.InvalidInput);
    }
    if round.commitment !in db.commitments {
      return Err(NotFound);
    }
    if round.review || !env.recovered {
      return Ok(UnderReview);
    }
    if user !in db.wallets {
      return Err(WalletNotFound);
    }
    var w := db.wallets[user];
    if w.balance > MAX_INT64 - round.initial * 17 || w.ledgerSeq > MAX_INT64 - 2 || w.version > MAX_INT64 - 2 {
      return Err(Overflow);
    }
    var assets := Observe(db, user, w.balance, round.stake, env);
    if assets.Err? {
      return Err(assets.error);
    }
    if env.economy.Some? && TakesStake(action.kind) && hand.Some?
       && hand.value > env.economy.value.singleMax - round.stake {
      return Err(Error.InvalidInput);
    }
    r := Ok(Ready);
  }

  /** Clips a payout and credits the rest, if there is any. */
  method PayOut(w: Wallet, env: Env, total: int, stake: int, payout: int) returns (r: Result<Payment, Error>)
    ensures r == Pay(w, env, total, stake, payout)
  {
    var withheld := 0;
    if env.economy.Some? {
      var capped := PayoutCap.CapPayout(env.economy.value.assetCap, total, stake, payout);
      if capped.Err? {
        return Err(Overflow);
      }
      withheld := capped.value.withheld;
    }
    var paid := w;
    if payout - withheld > 0 {
      var credited := Apply(w, payout - withheld);
      if credited.Err? {
        return Err(credited.error);
      }
      paid := credited.value;
    }
    r := Ok(Payment(payout, withheld, paid));
  }

  /** Pays and closes a finished hand. */
  method FinishTransition(db: Db, id: Id, gross: int, env: Env) returns (r: Tx<Id>)
    requires MayFinish(db, id)
    ensures r == Finish(db, id, gross, env)
  {
    var round := db.rounds[id];
    var bonus := BonusOf(db.commitments[round.commitment], round.initial);
    var payout := gross + bonus;
    if payout > MAX_INT64 {
      return Err(Overflow);
    }
    var w := db.wallets[round.user];
    var total := 0;
    if env.economy.Some? {
      var assets := ReadUnifiedAssets(db, round.user, w.balance, env);
      if assets.Err? {
        return Err(assets.error);
      }
      total := assets.value;
    }
    var p := PayOut(w, env, total, round.stake, payout);
    if p.Err? {
      return Err(p.error);
    }
    r := Ok((CloseRound(WithFair(db, id, bonus), p.value.paid, id, p.value.payout, p.value.withheld), id));
  }

  // ------------------------------------------------- outcome-dependent parts

  /** Draws, then debits, caps, pays, records and reveals. */
  method SettleRound(db: Db, cid: Id, key: string, plan: Plan, env: Env, source: Source) returns (r: Tx<Shown>)
    requires cid in db.commitments
    ensures r == SettleFast(db, cid, key, plan, env, source)
  {
    var outcome := Derive(db.commitments[cid].game, plan.n.input, env.config, source);
    r := SettleOutcome(db, cid, key, plan, env, outcome);
  }

  method SettleOutcome(db: Db, cid: Id, key: string, plan: Plan, env: Env, outcome: Option<Outcome>)
    returns (r: Tx<Shown>)
    requires cid in db.commitments && (outcome.Some? ==> ThreeDice(outcome.value.typed))
    ensures r == SettleAs(db, cid, key, plan, env, outcome)
  {
    var c := db.commitments[cid];
    var w := Apply(plan.before, 0 - plan.n.totalStake);
    if w.Err? {
      return Err(w.error);
    }
    if outcome.None? {
      return Err(Error.InvalidInput);
    }
    var p := PayOut(w.value, env, plan.total, plan.n.totalStake, plan.n.base * outcome.value.payoff.payout);
    if p.Err? {
      return Err(p.error);
    }
    var rows := PersistTyped(outcome.value);
    var tx := OpenRound(db, w.value, NewRound(c, cid, key, plan.n, 0, rows));
    tx := CloseRound(tx, p.value.paid, c.roundId, p.value.payout, p.value.withheld);
    r := Ok((tx, Shown(c.roundId, tx.rounds[c.roundId], Fast(outcome.value))));
  }

  /** Reads a round for its player, a hand after recovering it. */
  method ReadTx(db: Db, id: Id, env: Env) returns (r: Tx<Shown>)
    requires id in db.rounds
    ensures r == ReadRound(db, id, env)
  {
    var tx := AfterRead(db, id, env);
    var round := tx.rounds[id];
    if round.game == Blackjack {
      if round.review || !env.recovered {
        return Ok((tx, Shown(id, round.(review := true), NoHand)));
      }
      return Ok((tx, Shown(id, round, Hand)));
    }
    var outcome := ReadTyped(round.game, round.rows);
    r := if outcome.None? then Err(Error.Unavailable) else Ok((tx, Shown(id, round, Fast(outcome.value))));
  }

  method DealHand(db: Db, cid: Id, key: string, plan: Plan, env: Env, deal: Play21) returns (r: Tx<Id>)
    requires cid in db.commitments
    ensures r == Deal(db, cid, key, plan, env, deal)
  {
    var c := db.commitments[cid];
    var w := Apply(plan.before, 0 - plan.n.totalStake);
    if w.Err? {
      return Err(w.error);
    }
    var tx := OpenRound(db, w.value, NewRound(c, cid, key, plan.n, deal.autoResolveAt, NoRows));
    if deal.settled {
      r := FinishTransition(tx, c.roundId, deal.payout, env);
    } else {
      r := Ok((WithJobs(tx, c.roundId, env, deal.autoResolveAt), c.roundId));
    }
  }

  method PlayMove(db: Db, user: User, id: Id, action: ActionInput, env: Env, move: Play21)
    returns (r: Tx<Option<Round>>)
    requires MayFinish(db, id) && db.rounds[id].user == user
    ensures r == Move(db, user, id, action, env, move)
  {
    var w := Debited(db.wallets[user], move.additional);
    if w.Err? {
      return Err(w.error);
    }
    var tx := RaiseStake(db, w.value, id, move.additional, move.autoResolveAt);
    var done := FinishMove(tx, id, env, move);
    if done.Err? {
      return Err(done.error);
    }
    tx := done.value.0;
    var shown := Some(tx.rounds[id]);
    r := Ok((tx.(actions := tx.actions[action.id := ActionRow(user, id, action, shown)]), shown));
  }

  method FinishMove(db: Db, id: Id, env: Env, move: Play21) returns (r: Tx<Id>)
    requires MayFinish(db, id)
    ensures r == Moved(db, id, move, env) && (r.Ok? ==> id in r.value.0.rounds)
  {
    if move.settled {
      r := FinishTransition(db, id, move.payout, env);
    } else {
      r := Ok((Rescheduled(db, id, move.autoResolveAt), id));
    }
  }

  /** Records the system's stands one by one. */
  method ResolveHand(db: Db, id: Id, env: Env, payout: int, ids: seq<Id>) returns (r: Tx<()>)
    requires MayFinish(db, id)
    ensures r == Resolve(db, id, env, payout, ids)
  {
    var finished := FinishTransition(Stood(db, id, |ids|), id, payout, env);
    if finished.Err? {
      return Err(finished.error);
    }
    var tx := finished.value.0;
    var round, shown := db.rounds[id], tx.rounds[id];
    var actions: map<Id, ActionRow> := tx.actions;
    for i := 0 to |ids|
      invariant WithSystemActions(actions, round.user, id, ids[i..], round.version + i, shown)
             == WithSystemActions(tx.actions, round.user, id, ids, round.version, shown)
    {
      assert ids[i..][0] == ids[i] && ids[i..][1..] == ids[i + 1..];
      actions := actions[ids[i] := ActionRow(round.user, id, ActionInput(ids[i], SystemAutoStand, 0, round.version + i),
                                             Some(shown))];
    }
    r := Ok((tx.(actions := actions), ()));
  }

  // ---------------------------------------------------------- transactions

  method CreateTx(db: Db, user: User, game: Game, key: string, cid: Id, input: Input, env: Env, source: Source)
    returns (r: Tx<Shown>)
    requires KeysDistinct(db)
    ensures r == CreateFast(db, user, game, key, cid, input, env, source)
  {
    var check := CheckCreate(db, user, game, key, cid, input, env);
    if check.Err? {
      return Err(check.error);
    }
    match check.value
    case Replay(id) => r := ReadTx(db, id, env);
    case Fresh(plan) =>
      r := SettleRound(WithPreference(db, user, game, PreferenceOf(db, user, game, env)), cid, key, plan, env, source);
  }

  method DealTx(db: Db, user: User, key: string, cid: Id, input: Input, env: Env, deal: Play21) returns (r: Tx<Shown>)
    requires KeysDistinct(db)
    ensures r == CreateBlackjack(db, user, key, cid, input, env, deal)
  {
    var check := CheckCreate(db, user, Blackjack, key, cid, input, env);
    if check.Err? {
      return Err(check.error);
    }
    match check.value
    case Replay(id) => r := ReadTx(db, id, env);
    case Fresh(plan) =>
      var tx := DealHand(WithPreference(db, user, Blackjack, PreferenceOf(db, user, Blackjack, env)), cid, key, plan,
                         env,
                         deal);
      r := if tx.Err? then Err(tx.error) else Ok((tx.value.0, Shown(tx.value.1, tx.value.0.rounds[tx.value.1], Hand)));
  }

  method FindTx(db: Db, user: User, game: Game, key: string, env: Env) returns (r: Tx<Option<Shown>>)
    requires KeysDistinct(db)
    ensures r == FindByKey(db, user, game, key, env)
  {
    if !ValidKey(key) {
      return Err(Error.InvalidInput);
    }
    var found := FindRound(db, user, game, key);
    if found.None? {
      return Ok((db, None));
    }
    var read := ReadTx(db, found.value, env);
    r := if read.Err? then Err(read.error) else Ok((read.value.0, Some(read.value.1)));
  }

  method ActionTx(db: Db, user: User, id: Id, action: ActionInput, env: Env, hand: Option<int>, engine: Option<Play21>)
    returns (r: Tx<Option<Round>>)
    ensures r == BlackjackAction(db, user, id, action, env, hand, engine)
  {
    var check := CheckMove(db, user, id, action, env, hand);
    if check.Err? {
      return Err(check.error);
    }
    match check.value
    case Answered(response) => r := Ok((db, response));
    case UnderReview => r := Ok((AfterRead(db, id, env), None));
    case Ready =>
      if engine.None? || db.rounds[id].phase == Settled {
        return Err(EngineRefused);
      }
      if action.id in db.actions {
        return Err(Collision);
      }
      r := PlayMove(db, user, id, action, env, engine.value);
  }

  method JobTx(db: Db, id: Id, kind: JobKind, env: Env, payout: int, ids: seq<Id>) returns (r: Tx<()>)
    ensures r == ProcessJob(db, id, kind, env, payout, ids)
  {
    var check := JobPreflight(db, id, kind, env);
    if check.Err? {
      return Err(check.error);
    }
    match check.value {
      case Skip => r := Ok((db, ()));
      case Reviewed => r := Ok((AfterRead(db, id, env), ()));
      case Close => r := Ok((db.(jobs := db.jobs[(id, kind) := db.jobs[(id, kind)].(status := Done)]), ()));
      case Postpone =>
        r := Ok((db.(jobs := db.jobs[(id, kind) := db.jobs[(id, kind)].(runAt := db.rounds[id].autoResolveAt)]), ()));
      case Settle =>
        if !FreshActions(db, ids) {
          return Err(Collision);
        }
        r := ResolveHand(db, id, env, payout, ids);
    }
  }

  /** Reads the latest round, which may leave a review mark, and the client seed. */
  method LoadPage(db: Db, user: User, game: Game, env: Env) returns (view: Db, blocked: bool)
    requires SlotOk(db, user, game) && OneLatest(db, user, game)
    ensures view == Viewed(db, user, game, env) && SlotOk(view, user, game)
    ensures blocked == Blocker(db, user, game).Some?
  {
    var latest := FindLatest(db, user, game);
    blocked := latest.Some? && Blocking(db.rounds[latest.value]);
    view := if latest.Some? then AfterRead(db, latest.value, env) else db;
    view := WithPreference(view, user, game, PreferenceOf(view, user, game, env));
    ViewedSlot(db, user, game, env);
  }

  lemma ViewedSlot(db: Db, user: User, game: Game, env: Env)
    requires SlotOk(db, user, game)
    ensures SlotOk(Viewed(db, user, game, env), user, game)
  {
    SlotFrame(db, Viewed(db, user, game, env), user, game);
  }

  method BootstrapTx(db: Db, user: User, game: Game, env: Env, id: Id, roundId: Id, draw: nat)
    returns (r: Tx<Option<Id>>)
    requires SlotOk(db, user, game) && OneLatest(db, user, game)
    ensures r == Bootstrap(db, user, game, env, id, roundId, draw)
  {
    if user !in db.wallets {
      return Err(WalletNotFound);
    }
    var view, blocked := LoadPage(db, user, game, env);
    if env.entry != Play || blocked {
      return Ok((view, None));
    }
    var next := Advance(view, user, game, Bound(env, view.prefs[(user, game)]), id, roundId, draw);
    if next.Err? {
      return Err(next.error);
    }
    r := Ok((next.value.0, Some(next.value.1)));
  }

  method SeedTx(db: Db, user: User, game: Game, seed: string, env: Env, id: Id, roundId: Id, draw: nat)
    returns (r: Tx<Id>)
    requires SlotOk(db, user, game)
    ensures r == SetClientSeed(db, user, game, seed, env, id, roundId, draw)
  {
    var p := PreferenceOf(db, user, game, env);
    var fault := SeedFault(p, user, seed, env);
    if fault.Some? {
      return Err(fault.value);
    }
    p := Reseeded(p, seed);
    SlotFrame(db, WithPreference(db, user, game, p), user, game);
    r := Advance(WithPreference(db, user, game, p), user, game, Bound(env, p), id, roundId, draw);
  }

  method RevealTx(db: Db, user: User, id: Id, actionId: Id) returns (r: Tx<Round>)
    ensures r == RevealComplete(db, user, id, actionId)
  {
    if id !in db.rounds || db.rounds[id].user != user {
      return Err(NotFound);
    }
    var round := db.rounds[id];
    if round.game != Scratch {
      return Err(Error.InvalidInput);
    }
    if actionId in db.actions {
      if db.actions[actionId].round != id {
        return Err(IdempotencyConflict);
      }
      return Ok((db, round));
    }
    if round.presented {
      return Ok((db, round));
    }
    round := round.(presented := true);
    var row := ActionRow(user, id, ActionInput(actionId, ScratchReveal, 0, 0), None);
    r := Ok((db.(rounds := db.rounds[id := round], actions := db.actions[actionId := row]), round));
  }

  // --------------------------------------------------------------- service

  type JobId = (Id, JobKind)

  /** How many jobs one round of the worker takes. */
  const BATCH: nat := 16

  predicate DueJob(jobs: map<JobId, Job>, k: JobId, now: int) {
    k in jobs && jobs[k].status == Pending && jobs[k].runAt <= now
  }

  /** The order of the query: by time, then by the job's own id. */
  predicate NotLater(a: Job, b: Job) { a.runAt < b.runAt || (a.runAt == b.runAt && a.id <= b.id) }

  /** Distinct due jobs in that order, none passed over for a later one, and all of them if there are fewer than a
      batch. */
  ghost predicate Picked(jobs: map<JobId, Job>, now: int, picked: seq<JobId>) {
    && |picked| <= BATCH
    && (forall i :: 0 <= i < |picked| ==> DueJob(jobs, picked[i], now))
    && (forall i, j :: 0 <= i < j < |picked| ==>
          picked[i] != picked[j] && NotLater(jobs[picked[i]], jobs[picked[j]]))
    && (forall k :: DueJob(jobs, k, now) && k !in picked ==>
          |picked| == BATCH && forall i :: 0 <= i < |picked| ==> NotLater(jobs[picked[i]], jobs[k]))
  }

  method EarliestJob(jobs: map<JobId, Job>, now: int, taken: seq<JobId>) returns (r: Option<JobId>)
    ensures r.None? ==> forall k :: DueJob(jobs, k, now) ==> k in taken
    ensures r.Some? ==> DueJob(jobs, r.value, now) && r.value !in taken
    ensures r.Some? ==> forall k :: DueJob(jobs, k, now) && k !in taken ==> NotLater(jobs[r.value], jobs[k])
  {
    r := None;
    var rest := jobs.Keys;
    while rest != {}
      invariant rest <= jobs.Keys
      invariant r.Some? ==> DueJob(jobs, r.value, now) && r.value !in taken
      invariant forall k :: DueJob(jobs, k, now) && k !in taken && k !in rest ==>
                r.Some? && NotLater(jobs[r.value], jobs[k])
      decreases rest
    {
      var k :| k in rest;
      if DueJob(jobs, k, now) && k !in taken && (r.None? || !NotLater(jobs[r.value], jobs[k])) {
        r := Some(k);
      }
      rest := rest - {k};
    }
    assert forall k :: DueJob(jobs, k, now) ==> k in jobs.Keys;
  }

  method PickJobs(jobs: map<JobId, Job>, now: int) returns (picked: seq<JobId>)
    ensures Picked(jobs, now, picked)
  {
    picked := [];
    var more := true;
    while more && |picked| < BATCH
      invariant |picked| <= BATCH
      invariant forall i :: 0 <= i < |picked| ==> DueJob(jobs, picked[i], now)
      invariant forall i, j :: 0 <= i < j < |picked| ==>
                picked[i] != picked[j] && NotLater(jobs[picked[i]], jobs[picked[j]])
      invariant forall k :: DueJob(jobs, k, now) && k !in picked ==> forall i :: 0 <= i < |picked| ==>
                NotLater(jobs[picked[i]], jobs[k])
      invariant !more ==> forall k :: DueJob(jobs, k, now) ==> k in picked
      decreases BATCH - |picked|, more
    {
      var next := EarliestJob(jobs, now, picked);
      if next.None? {
        more := false;
      } else {
        picked := picked + [next.value];
      }
    }
  }

  /** What a job's turn will read: the clock and the engine's automatic stands. */
  datatype Turn = Turn(env: Env, payout: int, ids: seq<Id>)

  function AsOp(k: JobId, t: Turn): Op { JobOp(k.0, k.1, t.env, t.payout, t.ids) }

  function AsRetry(k: JobId, t: Turn): Op { RetryOp(k.0, k.1, t.env.now) }

  ghost predicate JobDone(db: Db, k: JobId, t: Turn) { ProcessJob(db, k.0, k.1, t.env, t.payout, t.ids).Ok? }

  /** The steps of the first n jobs in order, each failed one followed by its postponement. */
  ghost function JobTrace(db: Db, keys: seq<JobId>, turns: seq<Turn>, n: nat): seq<Op>
    requires n <= |keys| && n <= |turns|
  {
    if n == 0 then []
    else
      var before, k, t := JobTrace(db, keys, turns, n - 1), keys[n - 1], turns[n - 1];
      before + if JobDone(Run(db, before), k, t) then [AsOp(k, t)] else [AsOp(k, t), AsRetry(k, t)]
  }

  /** How many of them succeeded. */
  ghost function JobsDone(db: Db, keys: seq<JobId>, turns: seq<Turn>, n: nat): nat
    requires n <= |keys| && n <= |turns|
  {
    if n == 0 then 0
    else
      var before := JobTrace(db, keys, turns, n - 1);
      JobsDone(db, keys, turns, n - 1) + if JobDone(Run(db, before), keys[n - 1], turns[n - 1]) then 1 else 0
  }

  /** The store and the count after the first n jobs. */
  ghost predicate WorkedTo(start: Db, keys: seq<JobId>, turns: seq<Turn>, n: nat, db: Db, done: nat) {
    && n <= |keys| && n <= |turns| && Runs(start, JobTrace(start, keys, turns, n))
    && db == Run(start, JobTrace(start, keys, turns, n)) && done == JobsDone(start, keys, turns, n)
  }

  ghost predicate WorkedOne(db: Db, k: JobId, t: Turn, db': Db, ok: bool) {
    && ok == JobDone(db, k, t)
    && db' == if ok then Step(db, AsOp(k, t)) else Step(Step(db, AsOp(k, t)), AsRetry(k, t))
  }

  lemma WorkedNext(start: Db, keys: seq<JobId>, turns: seq<Turn>, n: nat, db: Db, done: nat, db': Db, ok: bool)
    requires WorkedTo(start, keys, turns, n, db, done) && n < |keys| && n < |turns| && turns[n].payout >= 0
    requires WorkedOne(db, keys[n], turns[n], db', ok)
    ensures WorkedTo(start, keys, turns, n + 1, db', if ok then done + 1 else done)
  {
    JobTraced(start, keys, turns, n);
  }

  lemma WorkedNone(start: Db, keys: seq<JobId>, turns: seq<Turn>)
    ensures WorkedTo(start, keys, turns, 0, start, 0)
  {
  }

  lemma WorkedInv(start: Db, keys: seq<JobId>, turns: seq<Turn>, n: nat, db: Db, done: nat)
    requires Inv(start) && WorkedTo(start, keys, turns, n, db, done)
    ensures Inv(db)
  {
    RunSound(start, JobTrace(start, keys, turns, n));
  }

  /** One more job extends the run by its steps. */
  lemma JobTraced(db: Db, keys: seq<JobId>, turns: seq<Turn>, n: nat)
    requires n < |keys| && n < |turns| && turns[n].payout >= 0 && Runs(db, JobTrace(db, keys, turns, n))
    ensures Runs(db, JobTrace(db, keys, turns, n + 1))
    ensures var mid, k, t := Run(db, JobTrace(db, keys, turns, n)), keys[n], turns[n];
            Run(db, JobTrace(db, keys, turns, n + 1)) ==
              if JobDone(mid, k, t) then Step(mid, AsOp(k, t)) else Step(Step(mid, AsOp(k, t)), AsRetry(k, t))
  {
    var trace, k, t := JobTrace(db, keys, turns, n), keys[n], turns[n];
    RunSnoc(db, trace, AsOp(k, t));
    RunSnoc(db, trace + [AsOp(k, t)], AsRetry(k, t));
    assert trace + [AsOp(k, t)] + [AsRetry(k, t)] == trace + [AsOp(k, t), AsRetry(k, t)];
  }

  lemma FindSound(db: Db, user: User, game: Game, key: string, env: Env)
    requires Inv(db)
    ensures Sound(db, Commit(db, GameStore.FindByKey(db, user, game, key, env)))
  {
    SelfSound(db);
    FindForm(db, user, game, key, env);
    var found := RoundByKey(db, user, game, key);
    if found.Some? { ReadSound(db, found.value, env); }
  }

  lemma FindForm(db: Db, user: User, game: Game, key: string, env: Env)
    ensures var found, tx := RoundByKey(db, user, game, key), GameStore.FindByKey(db, user, game, key, env);
            || Commit(db, tx) == db
            || (found.Some? && ReadRound(db, found.value, env).Ok?
                && Commit(db, tx) == ReadRound(db, found.value, env).value.0)
  {
  }

  class Service {
    var db: Db

    ghost predicate Valid()
      reads this
    {
      Inv(db)
    }

    constructor ()
      ensures db == EMPTY && Valid()
    {
      db := EMPTY;
      new;
      EmptyInv();
    }

    /** Commits a finished transaction; a refused one leaves no trace. */
    method CommitTx<T>(tx: Tx<T>) returns (r: Result<T, Error>)
      modifies this
      ensures db == Commit(old(db), tx) && r == Answer(tx)
    {
      if tx.Err? {
        return Err(tx.error);
      }
      db := tx.value.0;
      r := Ok(tx.value.1);
    }

    /** Plays a fast game: one transaction from the wager to the revealed seed. */
    method Create(user: User, game: Game, key: string, cid: Id, input: Input, env: Env, source: Source)
      returns (r: Result<Shown, Error>)
      requires Valid() && game != Blackjack && ValidConfig(game, env.config)
      modifies this
      ensures db == Step(old(db), FastOp(user, game, key, cid, input, env, source)) && Valid()
      ensures r == Answer(CreateFast(old(db), user, game, key, cid, input, env, source))
    {
      PlayStep(db, FastOp(user, game, key, cid, input, env, source));
      var tx := CreateTx(db, user, game, key, cid, input, env, source);
      r := CommitTx(tx);
    }

    /** Deals a blackjack round, which stays open unless the deal settles it. */
    method CreateBlackjack(user: User, key: string, cid: Id, input: Input, env: Env, deal: Play21)
      returns (r: Result<Shown, Error>)
      requires Valid() && (deal.settled ==> deal.payout >= 0)
      modifies this
      ensures db == Step(old(db), DealOp(user, key, cid, input, env, deal)) && Valid()
      ensures r == Answer(GameStore.CreateBlackjack(old(db), user, key, cid, input, env, deal))
    {
      PlayStep(db, DealOp(user, key, cid, input, env, deal));
      var tx := DealTx(db, user, key, cid, input, env, deal);
      r := CommitTx(tx);
    }

    /** Looks a round up by its key, which for a hand recovers it first. */
    method FindByKey(user: User, game: Game, key: string, env: Env) returns (r: Result<Option<Shown>, Error>)
      requires Valid()
      modifies this
      ensures db == Commit(old(db), GameStore.FindByKey(old(db), user, game, key, env)) && Valid()
      ensures r == Answer(GameStore.FindByKey(old(db), user, game, key, env))
    {
      FindSound(db, user, game, key, env);
      var tx := FindTx(db, user, game, key, env);
      r := CommitTx(tx);
    }

    /** Applies one player action, or answers it as it was answered before. */
    method BlackjackAction(user: User, id: Id, action: ActionInput, env: Env, hand: Option<int>, engine: Option<Play21>)
      returns (r: Result<Option<Round>, Error>)
      requires Valid() && EngineOk(db, id, engine)
      modifies this
      ensures db == Step(old(db), MoveOp(user, id, action, env, hand, engine)) && Valid()
      ensures r == Answer(GameStore.BlackjackAction(old(db), user, id, action, env, hand, engine))
    {
      PlayStep(db, MoveOp(user, id, action, env, hand, engine));
      var tx := ActionTx(db, user, id, action, env, hand, engine);
      r := CommitTx(tx);
    }

    /** Runs one due job. */
    method ProcessJob(id: Id, kind: JobKind, env: Env, payout: int, ids: seq<Id>) returns (r: Result<(), Error>)
      requires Valid() && payout >= 0
      modifies this
      ensures db == Step(old(db), JobOp(id, kind, env, payout, ids)) && Valid()
      ensures r == Answer(GameStore.ProcessJob(old(db), id, kind, env, payout, ids))
    {
      OtherStep(db, JobOp(id, kind, env, payout, ids));
      var tx := JobTx(db, id, kind, env, payout, ids);
      r := CommitTx(tx);
    }

    /** Opens a game page: makes sure of the account, then offers the next commitment unless a round is unfinished. */
    method Bootstrap(user: User, game: Game, env: Env, id: Id, roundId: Id, draw: nat)
      returns (r: Result<Option<Id>, Error>)
      requires Valid()
      modifies this
      ensures db == Step(old(db), BootstrapOp(user, game, env, id, roundId, draw)) && Valid()
      ensures r == Answer(GameStore.Bootstrap(EnsureAccount(old(db), user), user, game, env, id, roundId, draw))
    {
      BootstrapStep(db, user, game, env, id, roundId, draw);
      EnsureAccountKeeps(db, user);
      db := EnsureAccount(db, user);
      InvSlots(db, user, game);
      InvLatest(db, user, game);
      var tx := BootstrapTx(db, user, game, env, id, roundId, draw);
      r := CommitTx(tx);
    }

    method SetClientSeed(user: User, game: Game, seed: string, env: Env, id: Id, roundId: Id, draw: nat)
      returns (r: Result<Id, Error>)
      requires Valid()
      modifies this
      ensures db == Step(old(db), SeedOp(user, game, seed, env, id, roundId, draw)) && Valid()
      ensures r == Answer(GameStore.SetClientSeed(old(db), user, game, seed, env, id, roundId, draw))
    {
      OtherStep(db, SeedOp(user, game, seed, env, id, roundId, draw));
      InvSlots(db, user, game);
      var tx := SeedTx(db, user, game, seed, env, id, roundId, draw);
      r := CommitTx(tx);
    }

    method RevealComplete(user: User, id: Id, actionId: Id) returns (r: Result<Round, Error>)
      requires Valid()
      modifies this
      ensures db == Step(old(db), RevealOp(user, id, actionId)) && Valid()
      ensures r == Answer(GameStore.RevealComplete(old(db), user, id, actionId))
    {
      OtherStep(db, RevealOp(user, id, actionId));
      var tx := RevealTx(db, user, id, actionId);
      r := CommitTx(tx);
    }

    /** One picked job: done, or put back for later. */
    method RunJob(k: JobId, t: Turn) returns (ok: bool)
      requires Valid() && t.payout >= 0
      modifies this
      ensures Valid() && WorkedOne(old(db), k, t, db, ok)
    {
      var r := ProcessJob(k.0, k.1, t.env, t.payout, t.ids);
      ok := r.Ok?;
      if !ok {
        PutBack(k, t);
      }
    }

    method PutBack(k: JobId, t: Turn)
      requires Valid()
      modifies this
      ensures Valid() && db == Step(old(db), AsRetry(k, t))
    {
      OtherStep(db, AsRetry(k, t));
      db := RetryJob(db, k.0, k.1, t.env.now);
    }

    method WorkJob(ghost start: Db, keys: seq<JobId>, turns: seq<Turn>, i: nat, done: nat) returns (more: nat)
      requires Inv(start) && i < |keys| <= |turns| && turns[i].payout >= 0 && WorkedTo(start, keys, turns, i, db, done)
      modifies this
      ensures WorkedTo(start, keys, turns, i + 1, db, more)
    {
      WorkedInv(start, keys, turns, i, db, done);
      var ok := RunJob(keys[i], turns[i]);
      WorkedNext(start, keys, turns, i, old(db), done, db, ok);
      more := if ok then done + 1 else done;
    }

    /** Works through the picked jobs in order; a failed one is put back for later and the rest go on. */
    method WorkJobs(keys: seq<JobId>, turns: seq<Turn>) returns (done: nat)
      requires Valid() && |keys| <= |turns| && forall i :: 0 <= i < |turns| ==> turns[i].payout >= 0
      modifies this
      ensures WorkedTo(old(db), keys, turns, |keys|, db, done)
    {
      WorkedNone(db, keys, turns);
      done := 0;
      for i := 0 to |keys|
        invariant WorkedTo(old(db), keys, turns, i, db, done)
      {
        done := WorkJob(old(db), keys, turns, i, done);
      }
    }

    /** Picks the due jobs and works through them. */
    method RunJobs(now: int, turns: seq<Turn>) returns (done: nat, ghost picked: seq<JobId>)
      requires Valid() && |turns| == BATCH && forall i :: 0 <= i < BATCH ==> turns[i].payout >= 0
      modifies this
      ensures Valid() && Picked(old(db).jobs, now, picked) && WorkedTo(old(db), picked, turns, |picked|, db, done)
    {
      var keys := PickJobs(db.jobs, now);
      picked := keys;
      done := WorkJobs(keys, turns);
      WorkedInv(old(db), keys, turns, |keys|, db, done);
    }
  }
}
