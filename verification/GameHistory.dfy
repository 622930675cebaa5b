/** Whole runs of Direct Play by any users: the invariant, conservation, nonces, blockers and recovery. */
module GameHistory {
  import opened Numbers
  import opened Wrappers
  import opened Wagers
  import opened FastGames
  import opened GameStore
  import opened GameInvariant
  import opened GameUpdates
  import opened GameTransactions
  import FairReturn

  datatype Op =
    | BootstrapOp(user: User, game: Game, env: Env, id: Id, roundId: Id, draw: nat)
    | SeedOp(user: User, game: Game, seed: string, env: Env, id: Id, roundId: Id, draw: nat)
    | FastOp(user: User, game: Game, key: string, cid: Id, input: Input, env: Env, source: Source)
    | DealOp(user: User, key: string, cid: Id, input: Input, env: Env, deal: Play21)
    | MoveOp(user: User, round: Id, action: ActionInput, env: Env, hand: Option<int>, engine: Option<Play21>)
    | JobOp(round: Id, kind: JobKind, env: Env, payout: int, ids: seq<Id>)
    | RetryOp(round: Id, kind: JobKind, now: int)
    | RevealOp(user: User, round: Id, actionId: Id)
    | ReadOp(round: Id, env: Env)
    | TransferOp(user: User, delta: int)

  ghost function Commit<T>(db: Db, tx: Tx<T>): Db { if tx.Ok? then tx.value.0 else db }

  /** One committed or rolled-back transaction. A bootstrap first makes sure of the account, in a transaction of its
      own. */
  ghost function Step(db: Db, op: Op): Db {
    match op
    case BootstrapOp(user, game, env, id, roundId, draw) =>
      var ready := EnsureAccount(db, user); Commit(ready, Bootstrap(ready, user, game, env, id, roundId, draw))
    case SeedOp(user, game, seed, env, id, roundId, draw) =>
      Commit(db, SetClientSeed(db, user, game, seed, env, id, roundId, draw))
    case FastOp(user, game, key, cid, input, env, source) =>
      Commit(db, CreateFast(db, user, game, key, cid, input, env, source))
    case DealOp(user, key, cid, input, env, deal) => Commit(db, CreateBlackjack(db, user, key, cid, input, env, deal))
    case MoveOp(user, round, action, env, hand, engine) =>
      Commit(db, BlackjackAction(db, user, round, action, env, hand, engine))
    case JobOp(round, kind, env, payout, ids) => Commit(db, ProcessJob(db, round, kind, env, payout, ids))
    case RetryOp(round, kind, now) => RetryJob(db, round, kind, now)
    case RevealOp(user, round, actionId) => Commit(db, RevealComplete(db, user, round, actionId))
    case ReadOp(round, env) => AfterRead(db, round, env)
    case TransferOp(user, delta) => Commit(db, Transfer(db, user, delta))
  }

  /** The configuration is one the constructors make, and the rules engine keeps its contract. */
  ghost predicate Feasible(db: Db, op: Op) {
    match op
    case FastOp(_, game, _, _, _, env, _) => game != Blackjack && ValidConfig(game, env.config)
    case DealOp(_, _, _, _, _, deal) => deal.settled ==> deal.payout >= 0
    case MoveOp(_, round, _, _, _, engine) => EngineOk(db, round, engine)
    case JobOp(_, _, _, payout, _) => payout >= 0
    case _ => true
  }

  ghost function Injected(db: Db, op: Op): int {
    if op.TransferOp? && Transfer(db, op.user, op.delta).Ok? then op.delta else 0
  }

  lemma CommitSound<T>(db: Db, tx: Tx<T>)
    requires Inv(db) && (tx.Ok? ==> Sound(db, tx.value.0))
    ensures Sound(db, Commit(db, tx))
  {
    SelfSound(db);
  }

  lemma BootstrapStep(db: Db, user: User, game: Game, env: Env, id: Id, roundId: Id, draw: nat)
    requires Inv(db)
    ensures Sound(db, Step(db, BootstrapOp(user, game, env, id, roundId, draw)))
  {
    var ready := EnsureAccount(db, user);
    EnsureAccountKeeps(db, user);
    BootstrapSound(ready, user, game, env, id, roundId, draw);
    CommitSound(ready, Bootstrap(ready, user, game, env, id, roundId, draw));
    SoundTwice(db, ready, Commit(ready, Bootstrap(ready, user, game, env, id, roundId, draw)));
  }

  lemma PlayStep(db: Db, op: Op)
    requires Inv(db) && Feasible(db, op) && (op.FastOp? || op.DealOp? || op.MoveOp?)
    ensures Sound(db, Step(db, op))
  {
    match op
    case FastOp(user, game, key, cid, input, env, source) =>
      CreateFastSound(db, user, game, key, cid, input, env, source);
      CommitSound(db, CreateFast(db, user, game, key, cid, input, env, source));
    case DealOp(user, key, cid, input, env, deal) =>
      CreateBlackjackSound(db, user, key, cid, input, env, deal);
      CommitSound(db, CreateBlackjack(db, user, key, cid, input, env, deal));
    case MoveOp(user, round, action, env, hand, engine) =>
      ActionSound(db, user, round, action, env, hand, engine);
      CommitSound(db, BlackjackAction(db, user, round, action, env, hand, engine));
  }

  lemma OtherStep(db: Db, op: Op)
    requires Inv(db) && Feasible(db, op) && (op.SeedOp? || op.JobOp? || op.RetryOp? || op.RevealOp? || op.ReadOp?)
    ensures Sound(db, Step(db, op))
  {
    match op
    case SeedOp(user, game, seed, env, id, roundId, draw) =>
      SetClientSeedSound(db, user, game, seed, env, id, roundId, draw);
      CommitSound(db, SetClientSeed(db, user, game, seed, env, id, roundId, draw));
    case JobOp(round, kind, env, payout, ids) =>
      JobSound(db, round, kind, env, payout, ids);
      CommitSound(db, ProcessJob(db, round, kind, env, payout, ids));
    case RetryOp(round, kind, now) => RetryKeeps(db, round, kind, now);
    case RevealOp(user, round, actionId) =>
      RevealSound(db, user, round, actionId);
      CommitSound(db, RevealComplete(db, user, round, actionId));
    case ReadOp(round, env) => AfterReadKeeps(db, round, env);
  }

  /** What a step has to show when chips come in from outside. */
  ghost predicate SoundUpTo(db: Db, db': Db, delta: int) {
    Inv(db') && Extends(db, db') && Chips(db') == Chips(db) + delta
  }

  lemma TransferStep(db: Db, user: User, delta: int)
    requires Inv(db)
    ensures SoundUpTo(db, Step(db, TransferOp(user, delta)), Injected(db, TransferOp(user, delta)))
  {
    TransferStepForm(db, user, delta);
    if Transfer(db, user, delta).Ok? { TransferSound(db, user, delta); } else { SelfSound(db); }
  }

  lemma TransferStepForm(db: Db, user: User, delta: int)
    ensures var tx := Transfer(db, user, delta); var op := TransferOp(user, delta);
            if tx.Ok? then Step(db, op) == tx.value.0 && Injected(db, op) == delta
            else Step(db, op) == db && Injected(db, op) == 0
  {
  }

  lemma StepSound(db: Db, op: Op)
    requires Inv(db) && Feasible(db, op)
    ensures SoundUpTo(db, Step(db, op), Injected(db, op))
  {
    match op
    case BootstrapOp(user, game, env, id, roundId, draw) => BootstrapStep(db, user, game, env, id, roundId, draw);
    case FastOp(_, _, _, _, _, _, _) => PlayStep(db, op);
    case DealOp(_, _, _, _, _, _) => PlayStep(db, op);
    case MoveOp(_, _, _, _, _, _) => PlayStep(db, op);
    case TransferOp(user, delta) => TransferStep(db, user, delta);
    case _ => OtherStep(db, op);
  }

  // ------------------------------------------------------------------ runs

  ghost predicate Runs(db: Db, ops: seq<Op>)
    decreases |ops|
  {
    ops == [] || (Feasible(db, ops[0]) && Runs(Step(db, ops[0]), ops[1..]))
  }

  ghost function Run(db: Db, ops: seq<Op>): Db
    decreases |ops|
  {
    if ops == [] then db else Run(Step(db, ops[0]), ops[1..])
  }

  ghost function TotalInjected(db: Db, ops: seq<Op>): int
    decreases |ops|
  {
    if ops == [] then 0 else Injected(db, ops[0]) + TotalInjected(Step(db, ops[0]), ops[1..])
  }

  /** Over every run, chips and open stakes together change only by net supply events and outside transfers. */
  lemma {:induction false} RunSound(db: Db, ops: seq<Op>)
    requires Inv(db) && Runs(db, ops)
    ensures Inv(Run(db, ops)) && Extends(db, Run(db, ops))
    ensures Chips(Run(db, ops)) == Chips(db) + TotalInjected(db, ops)
    decreases |ops|
  {
    if ops == [] {
      SelfSound(db);
    } else {
      StepSound(db, ops[0]);
      RunSound(Step(db, ops[0]), ops[1..]);
      ExtendsTwice(db, Step(db, ops[0]), Run(db, ops));
    }
  }

  lemma {:induction false} RunSnoc(db: Db, ops: seq<Op>, op: Op)
    requires Runs(db, ops) && Feasible(Run(db, ops), op)
    ensures Runs(db, ops + [op]) && Run(db, ops + [op]) == Step(Run(db, ops), op)
    decreases |ops|
  {
    if ops == [] {
      assert [op][1..] == [] && ops + [op] == [op];
    } else {
      RunSnoc(Step(db, ops[0]), ops[1..], op);
      assert (ops + [op])[1..] == ops[1..] + [op] && (ops + [op])[0] == ops[0];
    }
  }

  /** From an empty store: what players hold or have at stake is what came in plus the recorded issuance less the
      burns. */
  lemma Conservation(ops: seq<Op>)
    requires Runs(EMPTY, ops)
    ensures var db := Run(EMPTY, ops);
            SumOf(db.wallets, BalanceOf()) + SumOf(db.rounds, OpenStakes())
              == TotalInjected(EMPTY, ops) + SumOf(db.supply, Amounts())
  {
    EmptyInv();
    RunSound(EMPTY, ops);
  }

  // -------------------------------------------------------------- blockers

  /** The latest-only blocker of a bootstrap is the one a create's search over all rounds finds. */
  lemma BlockerAgrees(db: Db, user: User, game: Game)
    requires Inv(db)
    ensures Blocker(db, user, game).Some? <==> Blocked(db, user, game)
    ensures forall id: Id :: BlocksGame(db, id, user, game) ==> Blocker(db, user, game) == Some(id)
  {
    forall id: Id | BlocksGame(db, id, user, game) ensures Blocker(db, user, game) == Some(id) {
      BlockerIs(db, id, user, game);
    }
    if Blocker(db, user, game).Some? { assert BlocksGame(db, Blocker(db, user, game).value, user, game); }
  }

  lemma BlockerIs(db: Db, id: Id, user: User, game: Game)
    requires CommitmentsOk(db) && LinksOk(db) && BlockerIsLast(db) && BlocksGame(db, id, user, game)
    ensures Blocker(db, user, game) == Some(id)
  {
    assert IsLatest(db, id, user, game);
    LatestUnique(db, id, LatestRound(db, user, game).value, user, game);
  }

  lemma LatestUnique(db: Db, i: Id, j: Id, user: User, game: Game)
    requires CommitmentsOk(db) && LinksOk(db) && IsLatest(db, i, user, game) && IsLatest(db, j, user, game)
    ensures i == j
  {
    assert RoundMatches(db, i, db.rounds[i]) && RoundMatches(db, j, db.rounds[j]);
    assert SameSlot(db.commitments[db.rounds[i].commitment], db.commitments[db.rounds[j].commitment]);
  }

  // ----------------------------------------------------------- commitments

  /** A seed is out exactly when its one round is settled; a consumed commitment has its one open round. */
  lemma RevealedOnlySettled(db: Db, c: Id)
    requires Inv(db) && c in db.commitments
    ensures var x := db.commitments[c];
            && (x.state == Revealed <==> x.roundId in db.rounds && db.rounds[x.roundId].phase == Settled)
            && (x.state == Consumed <==> x.roundId in db.rounds && db.rounds[x.roundId].phase == PlayerTurn)
            && (forall id :: id in db.rounds && db.rounds[id].commitment == c ==> id == x.roundId)
  {
    var id := db.commitments[c].roundId;
    if id in db.rounds { assert RoundMatches(db, id, db.rounds[id]); }
    forall k | k in db.rounds && db.rounds[k].commitment == c ensures k == id {
      assert RoundMatches(db, k, db.rounds[k]);
    }
  }

  /** However the run goes on, a later commitment of the same user and game carries a larger nonce. */
  lemma NoncesIncrease(db: Db, ops: seq<Op>, earlier: Id, later: Id)
    requires Inv(db) && Runs(db, ops) && earlier in db.commitments && later !in db.commitments
    requires later in Run(db, ops).commitments
    requires SameSlot(Run(db, ops).commitments[later], db.commitments[earlier])
    ensures db.commitments[earlier].nonce < Run(db, ops).commitments[later].nonce
    ensures earlier in Run(db, ops).commitments
    ensures Run(db, ops).commitments[earlier].nonce == db.commitments[earlier].nonce
  {
    RunSound(db, ops);
    assert Advances(db.commitments[earlier], Run(db, ops).commitments[earlier]);
  }

  // -------------------------------------------------------------- recovery

  /** A settled blackjack row as recovery reads it. */
  function SettledRow(r: Round): FairReturn.Settlement {
    FairReturn.Settlement(true, r.payout, r.payout - r.stake, r.fair, FairReturn.ClassOf(r.payout - r.stake))
  }

  /** In every reachable state a settled blackjack row is recovered unchanged whenever the replay confirms it without
      its return. */
  lemma SettledRowRecovered(ops: seq<Op>, id: Id, verified: FairReturn.Settlement -> bool)
    requires Runs(EMPTY, ops) && id in Run(EMPTY, ops).rounds
    requires var r := Run(EMPTY, ops).rounds[id];
             r.game == Blackjack && r.phase == Settled && verified(FairReturn.Strip(SettledRow(r)))
    ensures var db := Run(EMPTY, ops); var r := db.rounds[id];
            && r.commitment in db.commitments
            && FairReturn.Recovered(SettledRow(r), verified, BonusOf(db.commitments[r.commitment], r.initial))
               == Ok(SettledRow(r))
  {
    EmptyInv();
    RunSound(EMPTY, ops);
    RowRecovers(Run(EMPTY, ops), id, verified);
  }

  lemma RowRecovers(db: Db, id: Id, verified: FairReturn.Settlement -> bool)
    requires LinksOk(db) && WalletsOk(db) && id in db.rounds
    requires var r := db.rounds[id];
             r.game == Blackjack && r.phase == Settled && verified(FairReturn.Strip(SettledRow(r)))
    ensures var r := db.rounds[id];
            && r.commitment in db.commitments
            && FairReturn.Recovered(SettledRow(r), verified, BonusOf(db.commitments[r.commitment], r.initial))
               == Ok(SettledRow(r))
  {
    assert RoundMatches(db, id, db.rounds[id]);
  }

  // ---------------------------------------------------------- auto-resolve

  /** When the auto-resolve job of a live hand comes due, and the wallet has its head room, the round is settled. */
  lemma DueJobSettles(db: Db, id: Id, env: Env, payout: int, ids: seq<Id>)
    requires Inv(db) && EconomyOk(env) && id in db.rounds && Live(db.rounds[id])
    requires 0 <= payout <= 2 * db.rounds[id].stake && FreshActions(db, ids)
    requires JobPreflight(db, id, AutoResolve, env) == Ok(Settle)
    requires env.economy.Some? ==>
              TotalAssets(Stood(db, id, |ids|), db.rounds[id].user, db.wallets[db.rounds[id].user].balance, env).Ok?
    ensures var result := ProcessJob(db, id, AutoResolve, env, payout, ids);
            result.Ok? && id in result.value.0.rounds && result.value.0.rounds[id].phase == Settled
  {
    assert RoundMatches(db, id, db.rounds[id]);
    JobRefusalIgnoresOutcome(db, id, env, payout, ids);
    ResolveSettles(db, id, env, payout, ids);
  }

  lemma ResolveSettles(db: Db, id: Id, env: Env, payout: int, ids: seq<Id>)
    requires MayFinish(db, id) && Resolve(db, id, env, payout, ids).Ok?
    requires JobPreflight(db, id, AutoResolve, env) == Ok(Settle) && FreshActions(db, ids)
    ensures var result := ProcessJob(db, id, AutoResolve, env, payout, ids);
            result.Ok? && id in result.value.0.rounds && result.value.0.rounds[id].phase == Settled
  {
  }
}
