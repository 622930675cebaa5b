/** Retried requests of Direct Play: which round a key brings back, and what of it is shown, in every later state. */
module GameReplays {
  import opened Numbers
  import opened Wrappers
  import opened Decimal
  import opened Wagers
  import opened FastGames
  import opened Outcomes
  import opened GameStore
  import opened GameInvariant
  import opened GameUpdates
  import opened GameTransactions
  import opened GameHistory

  // ---------------------------------------------------------- creates of fast games

  lemma KeyFound(db: Db, id: Id, user: User, game: Game, key: string)
    requires KeysDistinct(db) && HasKey(db, id, user, game, key)
    ensures RoundByKey(db, user, game, key) == Some(id)
  {
    var found := RoundByKey(db, user, game, key).value;
    assert InGame(db.rounds[found], db.rounds[id].user, db.rounds[id].game);
  }

  /** A stored key answers its round for the same input and refuses any other, before every other check. */
  lemma KeyDecides(db: Db, id: Id, user: User, game: Game, key: string, cid: Id, input: Input, env: Env)
    requires KeysDistinct(db) && HasKey(db, id, user, game, key) && user != 0 && ValidKey(key)
    requires Normalize(game, input).Ok?
    ensures Preflight(db, user, game, key, cid, input, env) ==
              if Normalize(game, input).value.input == db.rounds[id].request then Ok(Replay(id))
              else Err(IdempotencyConflict)
  {
    KeyFound(db, id, user, game, key);
  }

  lemma ReadKeepsKey(db: Db, id: Id, user: User, game: Game, key: string, env: Env)
    requires HasKey(db, id, user, game, key)
    ensures HasKey(AfterRead(db, id, env), id, user, game, key)
    ensures AfterRead(db, id, env).rounds[id].request == db.rounds[id].request
  {
  }

  lemma SettleRecordsKey(db: Db, cid: Id, key: string, plan: Plan, env: Env, source: Source)
    requires cid in db.commitments && SettleFast(db, cid, key, plan, env, source).Ok?
    ensures var (after, shown) := SettleFast(db, cid, key, plan, env, source).value; var c := db.commitments[cid];
            && HasKey(after, shown.id, c.user, c.game, key) && after.rounds[shown.id].request == plan.n.input
            && after.rounds[shown.id].phase == Settled
  {
    SettleAnswers(db, cid, key, plan, env, Derived(db.commitments[cid].game, plan.n.input, env.config, source).value);
  }

  lemma FastRecordsKey(db: Db, user: User, game: Game, key: string, cid: Id, input: Input, env: Env, source: Source)
    requires CreateFast(db, user, game, key, cid, input, env, source).Ok?
    ensures user != 0 && ValidKey(key) && Normalize(game, input).Ok?
    ensures var (after, shown) := CreateFast(db, user, game, key, cid, input, env, source).value;
            && HasKey(after, shown.id, user, game, key)
            && after.rounds[shown.id].request == Normalize(game, input).value.input
  {
    CreateForm(db, user, game, key, cid, input, env, source);
    PreflightChecks(db, user, game, key, cid, input, env);
    match Preflight(db, user, game, key, cid, input, env).value
    case Replay(id) => ReadRecordsKey(db, id, user, game, key, env);
    case Fresh(plan) =>
      SettleRecordsKey(WithPreference(db, user, game, PreferenceOf(db, user, game, env)), cid, key, plan, env, source);
  }

  lemma PreflightChecks(db: Db, user: User, game: Game, key: string, cid: Id, input: Input, env: Env)
    requires Preflight(db, user, game, key, cid, input, env).Ok?
    ensures user != 0 && ValidKey(key) && Normalize(game, input).Ok?
    ensures var n := Normalize(game, input).value;
            match Preflight(db, user, game, key, cid, input, env).value
            case Replay(id) => HasKey(db, id, user, game, key) && db.rounds[id].request == n.input
            case Fresh(plan) => HoldsAvailable(db, cid, user, game) && plan.n == n
  {
  }

  lemma ReadRecordsKey(db: Db, id: Id, user: User, game: Game, key: string, env: Env)
    requires HasKey(db, id, user, game, key) && ReadRound(db, id, env).Ok?
    ensures var (after, shown) := ReadRound(db, id, env).value;
            && shown.id == id && HasKey(after, id, user, game, key)
            && after.rounds[id].request == db.rounds[id].request
  {
    ReadKeepsKey(db, id, user, game, key, env);
  }

  /** A round of a fast game is read without effect, its result rebuilt from the stored rows. */
  lemma FastRead(db: Db, id: Id, env: Env)
    requires id in db.rounds && db.rounds[id].game != Blackjack && Readable(db.rounds[id].game, db.rounds[id].rows)
    ensures var r := db.rounds[id];
            ReadRound(db, id, env) == Ok((db, Shown(id, r, Fast(ReadBack(r.game, r.rows).value))))
  {
  }

  lemma FastAnswered(db: Db, id: Id, user: User, game: Game, key: string, cid: Id, input: Input, env: Env,
                     source: Source)
    requires RoundsOk(db) && HasKey(db, id, user, game, key) && user != 0 && ValidKey(key) && game != Blackjack
    requires Normalize(game, input).Ok?
    ensures ReadRound(db, id, env).Ok? && ReadRound(db, id, env).value.0 == db
    ensures CreateFast(db, user, game, key, cid, input, env, source) ==
              if Normalize(game, input).value.input == db.rounds[id].request then ReadRound(db, id, env)
              else Err(IdempotencyConflict)
    ensures FindByKey(db, user, game, key, env) == Ok((db, Some(ReadRound(db, id, env).value.1)))
  {
    KeyFound(db, id, user, game, key);
    KeyDecides(db, id, user, game, key, cid, input, env);
    CreateForm(db, user, game, key, cid, input, env, source);
    FastRead(db, id, env);
  }

  /** Whatever happens after a fast create, its key brings back the same round without effect, or a conflict; looking
      the key up answers the same. */
  lemma FastReplay(db: Db, user: User, game: Game, key: string, cid: Id, input: Input, env: Env, source: Source,
                   ops: seq<Op>, cid': Id, input': Input, env': Env, source': Source)
    requires Inv(db) && game != Blackjack && ValidConfig(game, env.config)
    requires CreateFast(db, user, game, key, cid, input, env, source).Ok?
    requires Runs(CreateFast(db, user, game, key, cid, input, env, source).value.0, ops) && Normalize(game, input').Ok?
    ensures var (after, shown) := CreateFast(db, user, game, key, cid, input, env, source).value;
            var later, id := Run(after, ops), shown.id;
            && id in after.rounds && id in later.rounds && Grows(after.rounds[id], later.rounds[id])
            && ReadRound(later, id, env').Ok? && ReadRound(later, id, env').value.0 == later
            && CreateFast(later, user, game, key, cid', input', env', source') ==
                 (if Normalize(game, input').value.input == Normalize(game, input).value.input
                  then ReadRound(later, id, env') else Err(IdempotencyConflict))
            && FindByKey(later, user, game, key, env') == Ok((later, Some(ReadRound(later, id, env').value.1)))
  {
    var (after, shown) := CreateFast(db, user, game, key, cid, input, env, source).value;
    FastRecordsKey(db, user, game, key, cid, input, env, source);
    CreateFastSound(db, user, game, key, cid, input, env, source);
    RunSound(after, ops);
    assert Grows(after.rounds[shown.id], Run(after, ops).rounds[shown.id]);
    FastAnswered(Run(after, ops), shown.id, user, game, key, cid', input', env', source');
  }

  /** A create's answer and the round it speaks of, in a later state. */
  ghost predicate Remains(shown: Shown, later: Db, user: User, game: Game, input: Input, config: Config,
                          source: Source) {
    && game != Blackjack && Normalize(game, input).Ok?
    && var n := Normalize(game, input).value; var o := Derived(game, n.input, config, source); var r := shown.round;
    && o.Some? && shown.view == Fast(o.value) && r.rows == Stored(o.value) && InGame(r, user, game)
    && r.phase == Settled && r.request == n.input && r.stake == n.totalStake
    && r.payout == n.base * o.value.payoff.payout
    && shown.id in later.rounds && Grows(r, later.rounds[shown.id])
    && RoundMatches(later, shown.id, later.rounds[shown.id])
  }

  lemma CreateRemains(db: Db, user: User, game: Game, key: string, cid: Id, input: Input, env: Env, source: Source,
                      ops: seq<Op>)
    requires Inv(db) && game != Blackjack && ValidConfig(game, env.config)
    requires Preflight(db, user, game, key, cid, input, env).Ok?
    requires Preflight(db, user, game, key, cid, input, env).value.Fresh?
    requires CreateFast(db, user, game, key, cid, input, env, source).Ok?
    requires Runs(CreateFast(db, user, game, key, cid, input, env, source).value.0, ops)
    ensures var (after, shown) := CreateFast(db, user, game, key, cid, input, env, source).value;
            Remains(shown, Run(after, ops), user, game, input, env.config, source)
  {
    var (after, shown) := CreateFast(db, user, game, key, cid, input, env, source).value;
    PreflightChecks(db, user, game, key, cid, input, env);
    FastPaysOutcome(db, user, game, key, cid, input, env, source);
    CreateFastSound(db, user, game, key, cid, input, env, source);
    LaterRound(after, ops, shown.id);
  }

  lemma LaterRound(db: Db, ops: seq<Op>, id: Id)
    requires Inv(db) && Runs(db, ops) && id in db.rounds
    ensures var later := Run(db, ops);
            id in later.rounds && Grows(db.rounds[id], later.rounds[id]) && RoundMatches(later, id, later.rounds[id])
  {
    RunSound(db, ops);
  }

  /** Only the presentation mark of a settled round may move; its result is rebuilt from the rows. */
  lemma RemainsShown(shown: Shown, later: Db, user: User, game: Game, input: Input, config: Config, source: Source,
                     env: Env)
    requires Remains(shown, later, user, game, input, config, source)
    ensures ShowsExactly(shown, later, env, PushedTriple(game, config, source))
  {
    ReadBackExactly(game, Normalize(game, input).value.input, config, source);
    FastRead(later, shown.id, env);
  }

  /** Reading the round of an answer: the same amounts and dice, cells or draws; the same payoff unless it was a pushed
      triple, which is shown as lost; altogether the same answer exactly if it was none and no ticket has been revealed
      since. */
  ghost predicate ShowsExactly(shown: Shown, later: Db, env: Env, pushed: bool) {
    && shown.view.Fast? && shown.id in later.rounds
    && var r, o, read := later.rounds[shown.id], shown.view.outcome, ReadRound(later, shown.id, env);
       && r.(presented := shown.round.presented) == shown.round
       && read == Ok((later, Shown(shown.id, r, Fast(if pushed then o.(payoff := PayoffOf(1, 0)) else o))))
       && (read.value.1 == shown <==> !pushed && r.presented == shown.round.presented)
  }

  /** Exactly when a replay, or a lookup, shows the original answer, in every later state. */
  lemma ReplayShowsExactly(db: Db, user: User, game: Game, key: string, cid: Id, input: Input, env: Env, source: Source,
                           ops: seq<Op>, env': Env)
    requires Inv(db) && game != Blackjack && ValidConfig(game, env.config)
    requires Preflight(db, user, game, key, cid, input, env).Ok?
    requires Preflight(db, user, game, key, cid, input, env).value.Fresh?
    requires CreateFast(db, user, game, key, cid, input, env, source).Ok?
    requires Runs(CreateFast(db, user, game, key, cid, input, env, source).value.0, ops)
    ensures var (after, shown) := CreateFast(db, user, game, key, cid, input, env, source).value;
            ShowsExactly(shown, Run(after, ops), env', PushedTriple(game, env.config, source))
  {
    var (after, shown) := CreateFast(db, user, game, key, cid, input, env, source).value;
    CreateRemains(db, user, game, key, cid, input, env, source, ops);
    RemainsShown(shown, Run(after, ops), user, game, input, env.config, source, env');
  }

  /** The verification of a settled round by its own seed and configuration succeeds exactly when it was no pushed
      triple, in every later state. */
  lemma VerifiedExactly(db: Db, user: User, game: Game, key: string, cid: Id, input: Input, env: Env, source: Source,
                        ops: seq<Op>)
    requires Inv(db) && game != Blackjack && ValidConfig(game, env.config)
    requires Preflight(db, user, game, key, cid, input, env).Ok?
    requires Preflight(db, user, game, key, cid, input, env).value.Fresh?
    requires CreateFast(db, user, game, key, cid, input, env, source).Ok?
    requires Runs(CreateFast(db, user, game, key, cid, input, env, source).value.0, ops)
    ensures var (after, shown) := CreateFast(db, user, game, key, cid, input, env, source).value;
            VerifyRound(Run(after, ops), user, shown.id, env.config, source)
              == Ok(!PushedTriple(game, env.config, source))
  {
    var (after, shown) := CreateFast(db, user, game, key, cid, input, env, source).value;
    CreateRemains(db, user, game, key, cid, input, env, source, ops);
    RemainsVerified(shown, Run(after, ops), user, game, input, env.config, source);
  }

  lemma RemainsVerified(shown: Shown, later: Db, user: User, game: Game, input: Input, config: Config, source: Source)
    requires Remains(shown, later, user, game, input, config, source)
    ensures VerifyRound(later, user, shown.id, config, source) == Ok(!PushedTriple(game, config, source))
  {
    NormalizeIdempotent(game, input);
    ReadBackExactly(game, Normalize(game, input).value.input, config, source);
  }

  /** Nothing on a verified row can be altered without its verification showing it: not the stake, not the payout, not
      the nonce, not what its cells, faces or draws say. */
  lemma TamperShows(db: Db, user: User, id: Id, config: Config, source: Source, r': Round)
    requires VerifyRound(db, user, id, config, source) == Ok(true)
    requires var r := db.rounds[id];
             r' == r.(stake := r'.stake, payout := r'.payout, nonce := r'.nonce, rows := r'.rows)
    ensures var r := db.rounds[id];
            VerifyRound(db.(rounds := db.rounds[id := r']), user, id, config, source) == Ok(true) <==>
              && r'.stake == r.stake && r'.payout == r.payout && r'.nonce == r.nonce
              && ReadBack(r.game, r'.rows) == ReadBack(r.game, r.rows)
  {
  }

  // --------------------------------------------------------------- deals

  lemma FinishKeepsTerms(db: Db, id: Id, gross: int, env: Env)
    requires MayFinish(db, id) && Finish(db, id, gross, env).Ok?
    ensures var (after, id') := Finish(db, id, gross, env).value;
            && id' == id && id in after.rounds
            && after.rounds[id].user == db.rounds[id].user && after.rounds[id].game == db.rounds[id].game
            && after.rounds[id].key == db.rounds[id].key && after.rounds[id].request == db.rounds[id].request
  {
  }

  lemma DealtRecordsKey(db: Db, cid: Id, key: string, plan: Plan, env: Env, deal: Play21)
    requires cid in db.commitments && Deal(db, cid, key, plan, env, deal).Ok?
    ensures var (after, id) := Deal(db, cid, key, plan, env, deal).value;
            && HasKey(after, id, db.commitments[cid].user, db.commitments[cid].game, key)
            && after.rounds[id].request == plan.n.input
  {
    if deal.settled {
      var started := OpenRound(db, Apply(plan.before, 0 - plan.n.totalStake).value,
                               DealtRound(db, cid, key, plan, deal));
      FinishKeepsTerms(started, db.commitments[cid].roundId, deal.payout, env);
    }
  }

  lemma DealRecordsKey(db: Db, user: User, key: string, cid: Id, input: Input, env: Env, deal: Play21)
    requires CreateBlackjack(db, user, key, cid, input, env, deal).Ok?
    ensures user != 0 && ValidKey(key) && Normalize(Blackjack, input).Ok?
    ensures var (after, shown) := CreateBlackjack(db, user, key, cid, input, env, deal).value;
            && HasKey(after, shown.id, user, Blackjack, key)
            && after.rounds[shown.id].request == Normalize(Blackjack, input).value.input
  {
    DealCheckForm(db, user, key, cid, input, env, deal);
    PreflightChecks(db, user, Blackjack, key, cid, input, env);
    match Preflight(db, user, Blackjack, key, cid, input, env).value
    case Replay(id) => ReadRecordsKey(db, id, user, Blackjack, key, env);
    case Fresh(plan) =>
      DealtRecordsKey(WithPreference(db, user, Blackjack, PreferenceOf(db, user, Blackjack, env)), cid, key, plan, env,
                      deal);
  }

  /** Reading a round writes nothing unless it is an open hand, not yet under review, whose recovery fails. */
  lemma ReadSilentExactly(db: Db, id: Id, env: Env)
    ensures AfterRead(db, id, env) == db <==>
              || id !in db.rounds || db.rounds[id].game != Blackjack || env.recovered
              || db.rounds[id].phase != PlayerTurn || db.rounds[id].review
  {
    if id in db.rounds { assert MarkReview(db, id) != db ==> MarkReview(db, id).rounds[id].review; }
  }

  /** A hand as read: as it stands now, or not at all while it is under review or cannot be recovered. */
  lemma HandRead(db: Db, id: Id, env: Env)
    requires id in db.rounds && db.rounds[id].game == Blackjack
    ensures var r := db.rounds[id];
            ReadRound(db, id, env) ==
              if env.recovered && !r.review then Ok((db, Shown(id, r, Hand)))
              else Ok((AfterRead(db, id, env), Shown(id, r.(review := true), NoHand)))
    ensures AfterRead(db, id, env) == db <==> env.recovered || db.rounds[id].phase == Settled || db.rounds[id].review
  {
    ReadSilentExactly(db, id, env);
  }

  lemma DealAnswered(db: Db, id: Id, user: User, key: string, cid: Id, input: Input, env: Env, deal: Play21)
    requires KeysDistinct(db) && HasKey(db, id, user, Blackjack, key) && user != 0 && ValidKey(key)
    requires Normalize(Blackjack, input).Ok?
    ensures CreateBlackjack(db, user, key, cid, input, env, deal) ==
              if Normalize(Blackjack, input).value.input == db.rounds[id].request then ReadRound(db, id, env)
              else Err(IdempotencyConflict)
  {
    KeyDecides(db, id, user, Blackjack, key, cid, input, env);
    DealCheckForm(db, user, key, cid, input, env, deal);
  }

  /** The same for a deal, however far its round has moved on: the hand is shown as it stands then. The replay leaves
      the store as it is, or a review mark, and the latter exactly for an open hand not yet under review whose recovery
      fails. */
  lemma DealReplay(db: Db, user: User, key: string, cid: Id, input: Input, env: Env, deal: Play21, ops: seq<Op>,
                   cid': Id, input': Input, env': Env, deal': Play21)
    requires Inv(db) && (deal.settled ==> deal.payout >= 0) && CreateBlackjack(db, user, key, cid, input, env, deal).Ok?
    requires Runs(CreateBlackjack(db, user, key, cid, input, env, deal).value.0, ops)
    requires Normalize(Blackjack, input').Ok?
    ensures var (after, shown) := CreateBlackjack(db, user, key, cid, input, env, deal).value;
            var later, id := Run(after, ops), shown.id;
            && id in after.rounds && id in later.rounds && Grows(after.rounds[id], later.rounds[id])
            && CreateBlackjack(later, user, key, cid', input', env', deal') ==
                 (if Normalize(Blackjack, input').value.input == Normalize(Blackjack, input).value.input
                  then ReadRound(later, id, env') else Err(IdempotencyConflict))
            && Readback(later, id, env')
  {
    var (after, shown) := CreateBlackjack(db, user, key, cid, input, env, deal).value;
    DealRecordsKey(db, user, key, cid, input, env, deal);
    CreateBlackjackSound(db, user, key, cid, input, env, deal);
    RunSound(after, ops);
    assert Grows(after.rounds[shown.id], Run(after, ops).rounds[shown.id]);
    DealAnswered(Run(after, ops), shown.id, user, key, cid', input', env', deal');
    HandRead(Run(after, ops), shown.id, env');
  }

  /** What reading a hand answers and leaves. */
  ghost predicate Readback(db: Db, id: Id, env: Env)
    requires id in db.rounds
  {
    var r, read := db.rounds[id], ReadRound(db, id, env);
    && read.Ok? && read.value.0 == AfterRead(db, id, env) && read.value.1.id == id
    && (read.value.0 == db <==> env.recovered || r.phase == Settled || r.review)
    && read.value.1.view == (if env.recovered && !r.review then Hand else NoHand)
    && read.value.1.round == (if env.recovered then r else r.(review := true))
  }

  /** So a replayed deal shows the original answer exactly while the hand has not moved and can be recovered. */
  lemma DealReplayShows(db: Db, user: User, key: string, cid: Id, input: Input, env: Env, deal: Play21, ops: seq<Op>,
                        env': Env)
    requires Inv(db) && (deal.settled ==> deal.payout >= 0)
    requires Preflight(db, user, Blackjack, key, cid, input, env).Ok?
    requires Preflight(db, user, Blackjack, key, cid, input, env).value.Fresh?
    requires CreateBlackjack(db, user, key, cid, input, env, deal).Ok?
    requires Runs(CreateBlackjack(db, user, key, cid, input, env, deal).value.0, ops)
    ensures var (after, shown) := CreateBlackjack(db, user, key, cid, input, env, deal).value;
            var later := Run(after, ops);
            && shown.id in later.rounds && ReadRound(later, shown.id, env').Ok?
            && (ReadRound(later, shown.id, env').value.1 == shown <==>
                  env'.recovered && later.rounds[shown.id] == shown.round)
  {
    var (after, shown) := CreateBlackjack(db, user, key, cid, input, env, deal).value;
    DealRecordsKey(db, user, key, cid, input, env, deal);
    CreateBlackjackSound(db, user, key, cid, input, env, deal);
    RunSound(after, ops);
    assert Grows(after.rounds[shown.id], Run(after, ops).rounds[shown.id]);
    HandRead(Run(after, ops), shown.id, env');
    FreshHandShown(db, user, key, cid, input, env, deal);
  }

  lemma FreshHandShown(db: Db, user: User, key: string, cid: Id, input: Input, env: Env, deal: Play21)
    requires Preflight(db, user, Blackjack, key, cid, input, env).Ok?
    requires Preflight(db, user, Blackjack, key, cid, input, env).value.Fresh?
    requires CreateBlackjack(db, user, key, cid, input, env, deal).Ok?
    ensures var (after, shown) := CreateBlackjack(db, user, key, cid, input, env, deal).value;
            && shown.id in after.rounds && shown == Shown(shown.id, after.rounds[shown.id], Hand) && !shown.round.review
            && (!deal.settled ==> shown.round.phase == PlayerTurn)
  {
    DealCheckForm(db, user, key, cid, input, env, deal);
    var plan := Preflight(db, user, Blackjack, key, cid, input, env).value.plan;
    NewHandOpen(WithPreference(db, user, Blackjack, PreferenceOf(db, user, Blackjack, env)), cid, key, plan, env, deal);
  }

  lemma NewHandOpen(db: Db, cid: Id, key: string, plan: Plan, env: Env, deal: Play21)
    requires cid in db.commitments && Deal(db, cid, key, plan, env, deal).Ok?
    ensures var (after, id) := Deal(db, cid, key, plan, env, deal).value;
            !after.rounds[id].review && (!deal.settled ==> after.rounds[id].phase == PlayerTurn)
  {
  }

  // ------------------------------------------------------- actions

  lemma ActionRecords(db: Db, user: User, id: Id, action: ActionInput, env: Env, hand: Option<int>,
                      engine: Option<Play21>)
    requires BlackjackAction(db, user, id, action, env, hand, engine).Ok?
    requires BlackjackAction(db, user, id, action, env, hand, engine).value.1.Some?
    ensures var (after, shown) := BlackjackAction(db, user, id, action, env, hand, engine).value;
            && user != 0 && PlayerMove(action)
            && action.id in after.actions && after.actions[action.id] == ActionRow(user, id, action, shown)
  {
  }

  /** Once an action has been answered with its round, the original answer returns without effect in every later state;
      any changed input under the same id conflicts, and looking the action up agrees. */
  lemma ActionReplay(db: Db, user: User, id: Id, action: ActionInput, env: Env, hand: Option<int>,
                     engine: Option<Play21>,
                     ops: seq<Op>,
                     id': Id, action': ActionInput, env': Env, hand': Option<int>, engine': Option<Play21>)
    requires Inv(db) && EngineOk(db, id, engine) && BlackjackAction(db, user, id, action, env, hand, engine).Ok?
    requires BlackjackAction(db, user, id, action, env, hand, engine).value.1.Some?
    requires Runs(BlackjackAction(db, user, id, action, env, hand, engine).value.0, ops)
    requires PlayerMove(action') && action'.id == action.id
    ensures var (after, shown) := BlackjackAction(db, user, id, action, env, hand, engine).value;
            Settles(Run(after, ops), user, id, action, shown, id', action', env', hand', engine')
  {
    var (after, shown) := BlackjackAction(db, user, id, action, env, hand, engine).value;
    ActionRecords(db, user, id, action, env, hand, engine);
    ActionSound(db, user, id, action, env, hand, engine);
    StoredActionStays(after, action.id, ops);
    ActionDecides(Run(after, ops), user, id, action, shown, id', action', env', hand', engine');
  }

  lemma StoredActionStays(db: Db, a: Id, ops: seq<Op>)
    requires Inv(db) && Runs(db, ops) && a in db.actions
    ensures a in Run(db, ops).actions && Run(db, ops).actions[a] == db.actions[a]
  {
    RunSound(db, ops);
  }

  /** A stored action decides every request under its id: the stored response for the same one, a conflict otherwise. */
  ghost predicate Settles(db: Db, user: User, id: Id, action: ActionInput, response: Option<Round>,
                          id': Id, action': ActionInput, env': Env, hand': Option<int>, engine': Option<Play21>) {
    && BlackjackAction(db, user, id', action', env', hand', engine') ==
         (if id' == id && action' == action then Ok((db, response)) else Err(IdempotencyConflict))
    && FindAction(db, user, id', action') ==
         (if id' == id && action' == action then Ok(response) else Err(IdempotencyConflict))
  }

  lemma ActionDecides(db: Db, user: User, id: Id, action: ActionInput, response: Option<Round>,
                      id': Id, action': ActionInput, env': Env, hand': Option<int>, engine': Option<Play21>)
    requires user != 0 && PlayerMove(action') && action'.id == action.id
    requires action.id in db.actions && db.actions[action.id] == ActionRow(user, id, action, response)
    ensures Settles(db, user, id, action, response, id', action', env', hand', engine')
  {
  }

  // -------------------------------------- rounds whose replay differs

  // A page opened and chips moved in: from there a create of ten chips passes every check.

  const START_KEY := "a-create-to-retry"

  function StartEnv(): Env {
    Env(false, Play, "runtime", DiceConfig(true), None, 0, true, true, false, true, 0, "seed", (3, 4))
  }

  function StartWallet(): Wallet { Wallet(10 * UNITS_PER_CHIP, 1, 1) }

  function StartStore(game: Game): Db {
    var commitment := Commitment(7, game, 0, 2, Binding("runtime", false, "seed", 1), 0, Available);
    EMPTY.(wallets := map[7 := StartWallet()], cursors := map[(7, game) := Cursor(1, false)],
           prefs := map[(7, game) := Preference("seed", 1)], commitments := map[1 := commitment])
  }

  lemma StartReached(game: Game) returns (ops: seq<Op>)
    ensures Runs(EMPTY, ops) && Run(EMPTY, ops) == StartStore(game)
  {
    var open, pay := BootstrapOp(7, game, StartEnv(), 1, 2, 0), TransferOp(7, 10 * UNITS_PER_CHIP);
    PageOpened(game);
    ChipsMovedIn(game);
    RunSnoc(EMPTY, [], open);
    RunSnoc(EMPTY, [] + [open], pay);
    ops := [] + [open] + [pay];
  }

  lemma PageOpened(game: Game)
    ensures Step(EMPTY, BootstrapOp(7, game, StartEnv(), 1, 2, 0))
         == StartStore(game).(wallets := map[7 := Wallet(0, 0, 0)])
  {
    var ready := EnsureAccount(EMPTY, 7);
    assert LatestRound(ready, 7, game).None?;
    assert AvailableCommitment(Viewed(ready, 7, game, StartEnv()), 7, game).None?;
  }

  lemma ChipsMovedIn(game: Game)
    ensures Step(StartStore(game).(wallets := map[7 := Wallet(0, 0, 0)]), TransferOp(7, 10 * UNITS_PER_CHIP))
         == StartStore(game)
  {
  }

  lemma TenIsTen()
    ensures AllDigits("10") && Value("10") == 10 && Digits(10) == "10"
  {
    assert Value("1") == 1 by { assert Value("") == 0; assert "1"[..0] == ""; }
    assert Value("10") == 10 by { assert "10"[..1] == "1"; }
    assert Digits(10) == "10" by { assert Digits(1) == "1"; }
  }

  lemma TenNormalizes(game: Game, input: Input)
    requires game != Summon && Shape(game, input) && Amount(game, input) == "10"
    ensures Normalize(game, input).Ok?
    ensures var n := Normalize(game, input).value;
            && n.input == input && n.base == n.totalStake == 10 * UNITS_PER_CHIP <= n.maxPayout <= 1000 * UNITS_PER_CHIP
  {
    TenIsTen();
  }

  lemma StartChecked(game: Game, input: Input)
    requires game != Summon && Shape(game, input) && Amount(game, input) == "10"
    ensures var check := Preflight(StartStore(game), 7, game, START_KEY, 1, input, StartEnv());
            check.Ok? && check.value.Fresh?
  {
    TenNormalizes(game, input);
    var db := StartStore(game);
    assert RoundByKey(db, 7, game, START_KEY).None?;
    assert !Blocked(db, 7, game);
    assert HoldsAvailable(db, 1, 7, game);
  }

  /** Some run leads to a store from which such a create passes every check. */
  lemma SomeStart(game: Game, input: Input)
    returns (ops: seq<Op>, user: User, key: string, cid: Id, env: Env)
    requires game != Summon && Shape(game, input) && Amount(game, input) == "10"
    ensures Runs(EMPTY, ops) && Inv(Run(EMPTY, ops)) && EconomyOk(env) && env.config == DiceConfig(true)
    ensures env.recovered
    ensures var check := Preflight(Run(EMPTY, ops), user, game, key, cid, input, env); check.Ok? && check.value.Fresh?
  {
    ops := StartReached(game);
    ReachedInv(ops);
    StartChecked(game, input);
    user, key, cid, env := 7, START_KEY, 1, StartEnv();
  }

  lemma ReachedInv(ops: seq<Op>)
    requires Runs(EMPTY, ops)
    ensures Inv(Run(EMPTY, ops))
  {
    EmptyInv();
    RunSound(EMPTY, ops);
  }

  function Fours(): Source { (d: string, n: nat) => if n > 3 then 3 else 0 }

  lemma FoursPushed(config: Config)
    requires config == DiceConfig(true)
    ensures PushedTriple(Dice, config, Fours())
  {
    assert Faces(Fours()) == [4, 4, 4];
  }

  /** In some run a create answers that the wager came back, while its replay shows it as lost, and its verification by
      the very seed and configuration fails. */
  lemma PushShownAsLost()
    returns (ops: seq<Op>, user: User, key: string, cid: Id, input: Input, env: Env, source: Source)
    ensures Runs(EMPTY, ops) && CreateFast(Run(EMPTY, ops), user, Dice, key, cid, input, env, source).Ok?
    ensures var (after, shown) := CreateFast(Run(EMPTY, ops), user, Dice, key, cid, input, env, source).value;
            var replay := CreateFast(after, user, Dice, key, cid, input, env, source);
            && shown.view.Fast? && shown.view.outcome.payoff == PayoffOf(1, 1)
            && shown.round.payout == shown.round.stake
            && replay.Ok? && replay.value.1.view.Fast? && replay.value.1.view.outcome.payoff == PayoffOf(1, 0)
            && VerifyRound(after, user, shown.id, env.config, source) == Ok(false)
  {
    input, source := Input("DICE", "10", "BIG", "", "", "", ""), Fours();
    ops, user, key, cid, env := SomeStart(Dice, input);
    FoursPushed(env.config);
    PushDiffers(Run(EMPTY, ops), user, key, cid, input, env, source);
  }

  lemma PushDiffers(db: Db, user: User, key: string, cid: Id, input: Input, env: Env, source: Source)
    requires Inv(db) && EconomyOk(env) && PushedTriple(Dice, env.config, source)
    requires Preflight(db, user, Dice, key, cid, input, env).Ok?
    requires Preflight(db, user, Dice, key, cid, input, env).value.Fresh?
    ensures CreateFast(db, user, Dice, key, cid, input, env, source).Ok?
    ensures var (after, shown) := CreateFast(db, user, Dice, key, cid, input, env, source).value;
            var replay := CreateFast(after, user, Dice, key, cid, input, env, source);
            && shown.view.Fast? && shown.view.outcome.payoff == PayoffOf(1, 1)
            && shown.round.payout == shown.round.stake
            && replay.Ok? && replay.value.1.view.Fast? && replay.value.1.view.outcome.payoff == PayoffOf(1, 0)
            && VerifyRound(after, user, shown.id, env.config, source) == Ok(false)
  {
    FastRefusalIgnoresOutcome(db, user, Dice, key, cid, input, env, source);
    var (after, shown) := CreateFast(db, user, Dice, key, cid, input, env, source).value;
    PreflightChecks(db, user, Dice, key, cid, input, env);
    assert Run(after, []) == after;
    FastReplay(db, user, Dice, key, cid, input, env, source, [], cid, input, env, source);
    CreateRemains(db, user, Dice, key, cid, input, env, source, []);
    PushRemains(shown, after, user, input, env, source);
  }

  lemma PushRemains(shown: Shown, later: Db, user: User, input: Input, env: Env, source: Source)
    requires Remains(shown, later, user, Dice, input, env.config, source) && PushedTriple(Dice, env.config, source)
    ensures shown.view.Fast? && shown.view.outcome.payoff == PayoffOf(1, 1) && shown.round.payout == shown.round.stake
    ensures var read := ReadRound(later, shown.id, env);
            read.Ok? && read.value.1.view.Fast? && read.value.1.view.outcome.payoff == PayoffOf(1, 0)
    ensures VerifyRound(later, user, shown.id, env.config, source) == Ok(false)
  {
    RemainsShown(shown, later, user, Dice, input, env.config, source, env);
    RemainsVerified(shown, later, user, Dice, input, env.config, source);
    PushPays(Normalize(Dice, input).value.input, env.config, source);
    NormalizedFits(Dice, input);
  }

  lemma PushPays(input: Input, config: Config, source: Source)
    requires PushedTriple(Dice, config, source)
    ensures Derived(Dice, input, config, source).Some?
    ensures Derived(Dice, input, config, source).value.payoff == PayoffOf(1, 1)
  {
  }

  /** In some run a deal has been answered, and its replay, recovery failing, answers without the hand and changes the
      store. */
  lemma ReplayCanMark()
    returns (ops: seq<Op>, user: User, key: string, cid: Id, input: Input, env: Env, deal: Play21, env': Env)
    ensures Runs(EMPTY, ops) && CreateBlackjack(Run(EMPTY, ops), user, key, cid, input, env, deal).Ok?
    ensures var (after, shown) := CreateBlackjack(Run(EMPTY, ops), user, key, cid, input, env, deal).value;
            var replay := CreateBlackjack(after, user, key, cid, input, env', deal);
            shown.view == Hand && replay.Ok? && replay.value.0 != after && replay.value.1.view == NoHand
  {
    input, deal := Input("BLACKJACK", "", "", "", "", "", "10"), Play21(0, false, 0, 100);
    ops, user, key, cid, env := SomeStart(Blackjack, input);
    env' := env.(recovered := false);
    OpenHandMarked(Run(EMPTY, ops), user, key, cid, input, env, deal, env');
  }

  /** The replay of a hand just dealt, recovery failing, changes the store. */
  lemma OpenHandMarked(db: Db, user: User, key: string, cid: Id, input: Input, env: Env, deal: Play21, env': Env)
    requires Inv(db) && EconomyOk(env) && deal == Play21(0, false, 0, deal.autoResolveAt) && !env'.recovered
    requires Preflight(db, user, Blackjack, key, cid, input, env).Ok?
    requires Preflight(db, user, Blackjack, key, cid, input, env).value.Fresh?
    ensures CreateBlackjack(db, user, key, cid, input, env, deal).Ok?
    ensures var (after, shown) := CreateBlackjack(db, user, key, cid, input, env, deal).value;
            var replay := CreateBlackjack(after, user, key, cid, input, env', deal);
            shown.view == Hand && replay.Ok? && replay.value.0 != after && replay.value.1.view == NoHand
  {
    DealRefusalIgnoresOutcome(db, user, key, cid, input, env, deal);
    var (after, shown) := CreateBlackjack(db, user, key, cid, input, env, deal).value;
    PreflightChecks(db, user, Blackjack, key, cid, input, env);
    assert Run(after, []) == after;
    DealReplay(db, user, key, cid, input, env, deal, [], cid, input, env', deal);
    FreshHandShown(db, user, key, cid, input, env, deal);
  }
}
