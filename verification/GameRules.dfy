/** When Direct Play takes a request, told from the request and the rows alone, and what it never touches. */
module GameRules {
  import opened Numbers
  import opened Wrappers
  import opened Wagers
  import opened FastGames
  import opened Outcomes
  import opened GameStore
  import opened GameInvariant
  import opened GameUpdates
  import opened GameTransactions
  import opened GameHistory
  import opened GameEffects

  // ----------------------------------------------------- when a create is taken

  /** The client seed in force: the stored one, or the fresh one this request would store. */
  function SeedInForce(db: Db, user: User, game: Game, env: Env): Preference {
    if (user, game) in db.prefs then db.prefs[(user, game)] else Preference(env.freshSeed, 1)
  }

  /** The player may start a round of this game, on this commitment, for this wager. */
  ghost predicate MayStart(db: Db, user: User, game: Game, key: string, cid: Id, input: Input, env: Env, spare: int) {
    && user != 0 && ValidKey(key) && Normalize(game, input).Ok?
    && !env.maintenance && env.entry == Play
    && (game == Scratch || game == Blackjack ==> forall id :: id in db.rounds && InGame(db.rounds[id], user, game) ==>
          db.rounds[id].phase == Settled && (game == Scratch ==> db.rounds[id].presented))
    && cid in db.commitments
    && var c, p, n := db.commitments[cid], SeedInForce(db, user, game, env), Normalize(game, input).value;
       && c.user == user && c.game == game && c.state == Available
       && c.binding.runtime == env.runtime && c.binding.fairRules == env.fairRules
       && c.binding.clientSeed == p.seed && c.binding.clientVersion == p.version
       && user in db.wallets
       && var w := db.wallets[user];
          && n.totalStake <= w.balance && w.balance - n.totalStake + n.maxPayout <= MAX_INT64
          && w.ledgerSeq + spare <= MAX_INT64 && w.version + spare <= MAX_INT64
          && (env.economy.Some? ==>
                n.totalStake <= env.economy.value.singleMax && env.healthy && Assets(db, user, env) <= MAX_INT64)
  }

  lemma BlocksExactly(db: Db, user: User, game: Game)
    requires game == Scratch || game == Blackjack
    ensures !Blocked(db, user, game) <==> forall id :: id in db.rounds && InGame(db.rounds[id], user, game) ==>
              db.rounds[id].phase == Settled && (game == Scratch ==> db.rounds[id].presented)
  {
    forall id | id in db.rounds && InGame(db.rounds[id], user, game)
      ensures !BlocksGame(db, id, user, game) <==>
                db.rounds[id].phase == Settled && (game == Scratch ==> db.rounds[id].presented)
    {
    }
  }

  /** The checks of a new create pass exactly when the player may start. */
  lemma ChecksExactly(db: Db, user: User, game: Game, key: string, cid: Id, input: Input, env: Env)
    requires RoundByKey(db, user, game, key).None?
    ensures Preflight(db, user, game, key, cid, input, env).Ok? <==>
              MayStart(db, user, game, key, cid, input, env, if game == Blackjack then 9 else 2)
  {
    if game == Scratch || game == Blackjack { BlocksExactly(db, user, game); }
  }

  /** A new create of a fast game is taken if and only if the player may start, whatever the seed hides. */
  lemma CreateTakenExactly(db: Db, user: User, game: Game, key: string, cid: Id, input: Input, env: Env, source: Source)
    requires Inv(db) && game != Blackjack && ValidConfig(game, env.config) && EconomyOk(env)
    requires RoundByKey(db, user, game, key).None?
    ensures CreateFast(db, user, game, key, cid, input, env, source).Ok? <==>
              MayStart(db, user, game, key, cid, input, env, 2)
  {
    FastRefusalIgnoresOutcome(db, user, game, key, cid, input, env, source);
    ChecksExactly(db, user, game, key, cid, input, env);
  }

  /** A new deal likewise, whatever the shoe hides. */
  lemma DealTakenExactly(db: Db, user: User, key: string, cid: Id, input: Input, env: Env, deal: Play21)
    requires Inv(db) && EconomyOk(env) && RoundByKey(db, user, Blackjack, key).None?
    requires (Normalize(Blackjack, input).Ok? ==> DealResult(Normalize(Blackjack, input).value.base, deal))
    ensures CreateBlackjack(db, user, key, cid, input, env, deal).Ok? <==>
              MayStart(db, user, Blackjack, key, cid, input, env, 9)
  {
    DealRefusalIgnoresOutcome(db, user, key, cid, input, env, deal);
    ChecksExactly(db, user, Blackjack, key, cid, input, env);
  }

  // ---------------------------------------------------- when an action is taken

  /** The player may act on this hand: it is theirs, live and recovered, the wallet has head room for seventeen wagers
      and two more entries, and a raise stays within the cap. */
  ghost predicate MayAct(db: Db, user: User, id: Id, action: ActionInput, env: Env, hand: Option<int>) {
    && user != 0 && action.expectedVersion >= 1 && action.kind in {Hit, Stand, Double, Split}
    && id in db.rounds
    && var r := db.rounds[id];
       && r.user == user && r.game == Blackjack && r.phase == PlayerTurn && !r.review && env.recovered
       && user in db.wallets
       && var w := db.wallets[user];
          && w.balance + 17 * r.initial <= MAX_INT64 && w.ledgerSeq + 2 <= MAX_INT64 && w.version + 2 <= MAX_INT64
          && (env.economy.Some? ==>
                && r.stake <= env.economy.value.singleMax && env.healthy && Assets(db, user, env) <= MAX_INT64
                && (action.kind in {Double, Split} && hand.Some? ==>
                      r.stake + hand.value <= env.economy.value.singleMax))
  }

  /** An action under an id not used before, which the rules engine allows, is applied if and only if its player may
      act: no card decides. */
  lemma ActionTakenExactly(db: Db, user: User, id: Id, action: ActionInput, env: Env, hand: Option<int>, move: Play21)
    requires Inv(db) && EconomyOk(env) && EngineOk(db, id, Some(move)) && action.id !in db.actions
    ensures var tx := BlackjackAction(db, user, id, action, env, hand, Some(move));
            tx.Ok? && tx.value.1.Some? <==> MayAct(db, user, id, action, env, hand)
  {
    RoundBacked(db, id);
    ReadyExactly(db, user, id, action, env, hand);
    ReadyAnswers(db, user, id, action, env, hand, move);
    if MayAct(db, user, id, action, env, hand) { ReadyApplied(db, user, id, action, env, hand, move); }
  }

  /** A job that settles its hand: ripe, of an open and sound hand past its deadline. */
  predicate Resolves(db: Db, id: Id, kind: JobKind, env: Env) {
    && Ripe(db, id, kind, env.now) && kind == AutoResolve && env.recovered && !db.rounds[id].review
    && db.rounds[id].phase == PlayerTurn && db.rounds[id].autoResolveAt <= env.now
  }

  /** The wallet has head room for seventeen wagers and one more entry, the action ids are new, and the assets can be
      read. */
  ghost predicate MayResolve(db: Db, id: Id, env: Env, ids: seq<Id>)
    requires id in db.rounds
  {
    var r := db.rounds[id];
    && r.user in db.wallets
    && var w := db.wallets[r.user];
       && w.balance + 17 * r.initial <= MAX_INT64 && w.ledgerSeq < MAX_INT64 && w.version < MAX_INT64
       && FreshActions(db, ids) && (env.economy.Some? ==> env.healthy && Assets(db, r.user, env) <= MAX_INT64)
  }

  /** A job fails if and only if it is to settle its hand and cannot, for reasons no card has a part in. */
  lemma JobTakenExactly(db: Db, id: Id, kind: JobKind, env: Env, payout: int, ids: seq<Id>)
    requires Inv(db) && EconomyOk(env) && (id in db.rounds ==> 0 <= payout <= 2 * db.rounds[id].stake)
    ensures ProcessJob(db, id, kind, env, payout, ids).Ok? <==>
              (Resolves(db, id, kind, env) ==> MayResolve(db, id, env, ids))
  {
    RoundBacked(db, id);
    JobTaken(db, id, kind, env, payout, ids);
  }

  lemma JobTaken(db: Db, id: Id, kind: JobKind, env: Env, payout: int, ids: seq<Id>)
    requires MoneyOk(db) && EconomyOk(env) && (id in db.rounds ==> 0 <= payout <= 2 * db.rounds[id].stake)
    requires id in db.rounds ==> db.rounds[id].commitment in db.commitments
    ensures ProcessJob(db, id, kind, env, payout, ids).Ok? <==>
              (Resolves(db, id, kind, env) ==> MayResolve(db, id, env, ids))
  {
    JobChecksExactly(db, id, kind, env);
    JobAnswers(db, id, kind, env, payout, ids);
    if JobPreflight(db, id, kind, env) == Ok(JobCheck.Settle) { ResolveTaken(db, id, env, payout, ids); }
  }

  lemma ResolveTaken(db: Db, id: Id, env: Env, payout: int, ids: seq<Id>)
    requires MoneyOk(db) && MayFinish(db, id) && EconomyOk(env)
    requires JobPreflight(db, id, AutoResolve, env) == Ok(JobCheck.Settle) && 0 <= payout <= 2 * db.rounds[id].stake
    ensures Resolve(db, id, env, payout, ids).Ok? <==>
              (env.economy.Some? ==> env.healthy && Assets(db, db.rounds[id].user, env) <= MAX_INT64)
  {
    StoodAssets(db, id, |ids|, env);
    JobRefusalIgnoresOutcome(db, id, env, payout, ids);
  }

  lemma JobChecksExactly(db: Db, id: Id, kind: JobKind, env: Env)
    requires id in db.rounds ==> db.rounds[id].commitment in db.commitments
    ensures var check := JobPreflight(db, id, kind, env);
            && (check == Ok(JobCheck.Settle) ==> Resolves(db, id, kind, env))
            && (check.Err? ==> Resolves(db, id, kind, env))
            && (Resolves(db, id, kind, env) ==>
                  var r := db.rounds[id];
                  (check == Ok(JobCheck.Settle) <==>
                     && r.user in db.wallets && db.wallets[r.user].balance + 17 * r.initial <= MAX_INT64
                     && db.wallets[r.user].ledgerSeq != MAX_INT64 && db.wallets[r.user].version != MAX_INT64)
                  && (check.Ok? ==> check == Ok(JobCheck.Settle)))
  {
  }

  lemma JobAnswers(db: Db, id: Id, kind: JobKind, env: Env, payout: int, ids: seq<Id>)
    ensures var check, tx := JobPreflight(db, id, kind, env), ProcessJob(db, id, kind, env, payout, ids);
            && (check.Err? ==> tx.Err?)
            && (check.Ok? && check.value != JobCheck.Settle ==> tx.Ok?)
            && (check == Ok(JobCheck.Settle) ==>
                  MayFinish(db, id)
                  && (tx.Ok? <==> FreshActions(db, ids) && Resolve(db, id, env, payout, ids).Ok?))
  {
  }

  lemma RoundBacked(db: Db, id: Id)
    requires Inv(db)
    ensures id in db.rounds ==> db.rounds[id].commitment in db.commitments
  {
    if id in db.rounds { assert RoundMatches(db, id, db.rounds[id]); }
  }

  lemma ReadyApplied(db: Db, user: User, id: Id, action: ActionInput, env: Env, hand: Option<int>, move: Play21)
    requires Inv(db) && EconomyOk(env) && EngineOk(db, id, Some(move)) && action.id !in db.actions
    requires MovePreflight(db, user, id, action, env, hand) == Ok(Ready) && db.rounds[id].phase == PlayerTurn
    ensures BlackjackAction(db, user, id, action, env, hand, Some(move)).Ok?
  {
    ActionRefusalIgnoresOutcome(db, user, id, action, env, hand, move);
  }

  lemma ReadyExactly(db: Db, user: User, id: Id, action: ActionInput, env: Env, hand: Option<int>)
    requires action.id !in db.actions && (id in db.rounds ==> db.rounds[id].commitment in db.commitments)
    ensures MovePreflight(db, user, id, action, env, hand) == Ok(Ready) && db.rounds[id].phase == PlayerTurn <==>
              MayAct(db, user, id, action, env, hand)
  {
  }

  lemma ReadyAnswers(db: Db, user: User, id: Id, action: ActionInput, env: Env, hand: Option<int>, move: Play21)
    requires action.id !in db.actions
    ensures var tx := BlackjackAction(db, user, id, action, env, hand, Some(move));
            tx.Ok? ==> (tx.value.1.Some? <==>
                          MovePreflight(db, user, id, action, env, hand) == Ok(Ready)
                          && db.rounds[id].phase == PlayerTurn)
  {
  }

  // ------------------------------------------------- commitments on offer

  /** The commitment offered under these terms: the one already held if it carries them, else the next one, the one held
      before being withdrawn. */
  ghost predicate Offers(db: Db, after: Db, user: User, game: Game, terms: Binding, c: Id, id: Id, roundId: Id,
                         draw: nat) {
    && HoldsAvailable(after, c, user, game) && after.commitments[c].binding == terms
    && (if HoldsAvailable(db, c, user, game)
        then after.commitments == db.commitments && after.cursors == db.cursors
        else
          && c == id && id !in db.commitments && after.commitments.Keys == db.commitments.Keys + {id}
          && after.commitments[id]
             == Commitment(user, game, CursorOf(db, user, game).next, roundId, terms, draw, Available)
          && forall k :: k in db.commitments ==>
               after.commitments[k] == if HoldsAvailable(db, k, user, game)
                 then db.commitments[k].(state := Invalidated)
                                       else db.commitments[k])
  }

  lemma HeldUnique(db: Db, user: User, game: Game)
    requires CommitmentsOk(db)
    ensures forall k: Id :: HoldsAvailable(db, k, user, game) ==> AvailableCommitment(db, user, game) == Some(k)
  {
    var held := AvailableCommitment(db, user, game);
    forall k: Id | HoldsAvailable(db, k, user, game) ensures held == Some(k) { AvailableUnique(db, k, held.value); }
  }

  lemma IssueOffers(db: Db, user: User, game: Game, terms: Binding, id: Id, roundId: Id, draw: nat)
    requires CommitmentsOk(db) && NextCommitment(db, user, game, terms, id, roundId, draw).Ok?
    ensures var (after, c) := NextCommitment(db, user, game, terms, id, roundId, draw).value;
            && Offers(db, after, user, game, terms, c, id, roundId, draw)
            && after == db.(commitments := after.commitments, cursors := after.cursors)
  {
    HeldUnique(db, user, game);
    IssueFromOffers(db, AvailableCommitment(db, user, game), user, game, terms, id, roundId, draw);
  }

  lemma IssueFromOffers(db: Db, held: Option<Id>, user: User, game: Game, terms: Binding, id: Id, roundId: Id,
                        draw: nat)
    requires held.Some? ==> HoldsAvailable(db, held.value, user, game)
    requires forall k: Id :: HoldsAvailable(db, k, user, game) ==> held == Some(k)
    requires IssueFrom(db, held, user, game, terms, id, roundId, draw).Ok?
    ensures var (after, c) := IssueFrom(db, held, user, game, terms, id, roundId, draw).value;
            && Offers(db, after, user, game, terms, c, id, roundId, draw)
            && after == db.(commitments := after.commitments, cursors := after.cursors)
  {
    if !(held.Some? && db.commitments[held.value].binding == terms) {
      var after := IssueFrom(db, held, user, game, terms, id, roundId, draw).value.0;
      forall k | k in db.commitments
        ensures after.commitments[k] == if HoldsAvailable(db, k, user, game)
          then db.commitments[k].(state := Invalidated)
                                        else db.commitments[k]
      {
        assert HoldsAvailable(db, k, user, game) <==> held == Some(k);
      }
    }
  }

  /** The client seeds have no part in what is offered. */
  lemma OffersBefore(db: Db, noted: Db, after: Db, user: User, game: Game, terms: Binding, c: Id, id: Id, roundId: Id,
                     draw: nat)
    requires noted == db.(prefs := noted.prefs) && Offers(noted, after, user, game, terms, c, id, roundId, draw)
    ensures Offers(db, after, user, game, terms, c, id, roundId, draw)
  {
    assert CursorOf(noted, user, game) == CursorOf(db, user, game);
    forall k: Id ensures HoldsAvailable(noted, k, user, game) == HoldsAvailable(db, k, user, game) {}
  }

  /** An accepted client seed is stored as asked for, under the next version if it is another one, and the commitment
      answered is on offer under it. */
  lemma SeedTaken(db: Db, user: User, game: Game, seed: string, env: Env, id: Id, roundId: Id, draw: nat)
    requires Inv(db) && SetClientSeed(db, user, game, seed, env, id, roundId, draw).Ok?
    ensures var (after, c) := SetClientSeed(db, user, game, seed, env, id, roundId, draw).value;
            var p := SeedInForce(db, user, game, env);
            var q := Preference(seed, if p.seed == seed then p.version else p.version + 1);
            && after.prefs == db.prefs[(user, game) := q]
            && Offers(db, after, user, game, Binding(env.runtime, env.fairRules, seed, q.version), c, id, roundId, draw)
            && after == db.(prefs := after.prefs, commitments := after.commitments, cursors := after.cursors)
  {
    SeedForm(db, user, game, seed, env, id, roundId, draw);
    NotedOffers(db, user, game, seed, env, id, roundId, draw);
  }

  lemma NotedOffers(db: Db, user: User, game: Game, seed: string, env: Env, id: Id, roundId: Id, draw: nat)
    requires CommitmentsOk(db)
    requires var q := Reseeded(PreferenceOf(db, user, game, env), seed);
             NextCommitment(WithPreference(db, user, game, q), user, game, Bound(env, q), id, roundId, draw).Ok?
    ensures var q := Reseeded(PreferenceOf(db, user, game, env), seed); var noted := WithPreference(db, user, game, q);
            var (after, c) := NextCommitment(noted, user, game, Bound(env, q), id, roundId, draw).value;
            && Offers(db, after, user, game, Bound(env, q), c, id, roundId, draw)
            && after == noted.(commitments := after.commitments, cursors := after.cursors)
  {
    var q := Reseeded(PreferenceOf(db, user, game, env), seed);
    var noted := WithPreference(db, user, game, q);
    IssueOffers(noted, user, game, Bound(env, q), id, roundId, draw);
    var (after, c) := NextCommitment(noted, user, game, Bound(env, q), id, roundId, draw).value;
    OffersBefore(db, noted, after, user, game, Bound(env, q), c, id, roundId, draw);
  }

  lemma SeedForm(db: Db, user: User, game: Game, seed: string, env: Env, id: Id, roundId: Id, draw: nat)
    requires SetClientSeed(db, user, game, seed, env, id, roundId, draw).Ok?
    ensures var q := Reseeded(PreferenceOf(db, user, game, env), seed);
            SetClientSeed(db, user, game, seed, env, id, roundId, draw)
              == NextCommitment(WithPreference(db, user, game, q), user, game, Bound(env, q), id, roundId, draw)
  {
  }

  /** A commitment under these terms is held already, or can be issued under fresh ids. */
  ghost predicate MayOffer(db: Db, user: User, game: Game, terms: Binding, id: Id, roundId: Id) {
    || (exists c :: HoldsAvailable(db, c, user, game) && db.commitments[c].binding == terms)
    || (!CursorOf(db, user, game).exhausted && id !in db.commitments
        && forall c :: c in db.commitments ==> db.commitments[c].roundId != roundId)
  }

  lemma OfferExactly(db: Db, user: User, game: Game, terms: Binding, id: Id, roundId: Id, draw: nat)
    requires CommitmentsOk(db)
    ensures NextCommitment(db, user, game, terms, id, roundId, draw).Ok? <==>
              MayOffer(db, user, game, terms, id, roundId)
  {
    HeldUnique(db, user, game);
  }

  /** One to 128 characters, none of them a control character. */
  predicate PlainSeed(seed: string) {
    1 <= |seed| <= 128 && forall i :: 0 <= i < |seed| ==> ' ' <= seed[i] && !(127 as char <= seed[i] <= 159 as char)
  }

  lemma SeedFaultExactly(p: Preference, user: User, seed: string, env: Env)
    ensures SeedFault(p, user, seed, env).None? <==>
              PlainSeed(seed) && user != 0 && env.configured && p.version != MAX_INT64
  {
  }

  /** A seed is taken if and only if it is plain, the game is configured, its version can still grow, and a commitment
      under it may be offered. */
  lemma SeedTakenExactly(db: Db, user: User, game: Game, seed: string, env: Env, id: Id, roundId: Id, draw: nat)
    requires CommitmentsOk(db)
    ensures var p := SeedInForce(db, user, game, env);
            var terms := Binding(env.runtime, env.fairRules, seed, if p.seed == seed then p.version else p.version + 1);
            SetClientSeed(db, user, game, seed, env, id, roundId, draw).Ok? <==>
              && PlainSeed(seed) && user != 0 && env.configured && p.version != MAX_INT64
              && MayOffer(db, user, game, terms, id, roundId)
  {
    var p := PreferenceOf(db, user, game, env);
    SeedFaultExactly(p, user, seed, env);
    var noted := WithPreference(db, user, game, Reseeded(p, seed));
    OfferExactly(noted, user, game, Bound(env, Reseeded(p, seed)), id, roundId, draw);
    SameOffer(db, noted, user, game, Bound(env, Reseeded(p, seed)), id, roundId);
  }

  lemma SameOffer(db: Db, noted: Db, user: User, game: Game, terms: Binding, id: Id, roundId: Id)
    requires noted == db.(prefs := noted.prefs)
    ensures MayOffer(noted, user, game, terms, id, roundId) == MayOffer(db, user, game, terms, id, roundId)
  {
    forall c: Id ensures HoldsAvailable(noted, c, user, game) == HoldsAvailable(db, c, user, game) {}
  }

  /** Opening a game offers a commitment under the rules and the seed in force exactly when the game is open and no
      round of the player is unfinished; the seed in force is stored. */
  lemma PageOffers(db: Db, user: User, game: Game, env: Env, id: Id, roundId: Id, draw: nat)
    requires Inv(db) && Bootstrap(db, user, game, env, id, roundId, draw).Ok?
    ensures var (after, offer) := Bootstrap(db, user, game, env, id, roundId, draw).value;
            var p := SeedInForce(db, user, game, env);
            && user in db.wallets && after.wallets == db.wallets && after.prefs == db.prefs[(user, game) := p]
            && (offer.Some? <==> env.entry == Play && !Blocked(db, user, game))
            && (offer.Some? ==> Offers(db, after, user, game, Binding(env.runtime, env.fairRules, p.seed, p.version),
                                       offer.value, id, roundId, draw))
            && (offer.None? ==> after.commitments == db.commitments)
  {
    BlockerAgrees(db, user, game);
    ViewSound(db, user, game, env);
    ViewShape(db, user, game, env);
    PageForm(db, user, game, env, id, roundId, draw);
    var viewed := Viewed(db, user, game, env);
    if env.entry == Play && Blocker(db, user, game).None? {
      IssueOffers(viewed, user, game, Bound(env, viewed.prefs[(user, game)]), id, roundId, draw);
    }
  }

  lemma ViewShape(db: Db, user: User, game: Game, env: Env)
    ensures var viewed := Viewed(db, user, game, env);
            && viewed.commitments == db.commitments && viewed.cursors == db.cursors && viewed.wallets == db.wallets
            && viewed.prefs == db.prefs[(user, game) := SeedInForce(db, user, game, env)]
  {
  }

  lemma PageForm(db: Db, user: User, game: Game, env: Env, id: Id, roundId: Id, draw: nat)
    requires Bootstrap(db, user, game, env, id, roundId, draw).Ok?
    ensures user in db.wallets
    ensures var viewed, page := Viewed(db, user, game, env), Bootstrap(db, user, game, env, id, roundId, draw).value;
            if env.entry == Play && Blocker(db, user, game).None? then
              var issued := NextCommitment(viewed, user, game, Bound(env, viewed.prefs[(user, game)]), id, roundId,
                                           draw);
              issued.Ok? && page == (issued.value.0, Some(issued.value.1))
            else page == (viewed, None)
  {
  }

  // ---------------------------------------------------------------- reveal

  /** A first completion marks exactly that ticket as shown and records itself; the ticket blocks no more, and if it
      did, nothing of the player's blocks the next ticket. */
  lemma RevealUnblocks(db: Db, user: User, id: Id, actionId: Id)
    requires Inv(db) && RevealComplete(db, user, id, actionId).Ok? && actionId !in db.actions
    ensures var (after, shown) := RevealComplete(db, user, id, actionId).value;
            && id in db.rounds && db.rounds[id].user == user && db.rounds[id].game == Scratch
            && shown == db.rounds[id].(presented := true) && after.rounds == db.rounds[id := shown]
            && after.wallets == db.wallets && after.commitments == db.commitments
            && !BlocksGame(after, id, user, Scratch)
            && (BlocksGame(db, id, user, Scratch) ==> !Blocked(after, user, Scratch))
            && (!db.rounds[id].presented ==>
                  after.actions == db.actions[actionId := ActionRow(user, id,
                                                                    ActionInput(actionId, ScratchReveal, 0, 0),
                                                                    None)])
  {
    var after := RevealComplete(db, user, id, actionId).value.0;
    RevealForm(db, user, id, actionId);
    assert db.rounds[id].phase == Settled;
    if BlocksGame(db, id, user, Scratch) { NoneLeft(db, after, id, user); }
  }

  lemma NoneLeft(db: Db, after: Db, id: Id, user: User)
    requires Inv(db) && BlocksGame(db, id, user, Scratch) && db.rounds[id].phase == Settled
    requires after.rounds == db.rounds[id := db.rounds[id].(presented := true)]
    ensures !Blocked(after, user, Scratch)
  {
    forall k: Id ensures !BlocksGame(after, k, user, Scratch) {
      if k != id && BlocksGame(db, k, user, Scratch) { BothBlock(db, id, k); }
    }
  }

  lemma RevealForm(db: Db, user: User, id: Id, actionId: Id)
    requires RevealComplete(db, user, id, actionId).Ok? && actionId !in db.actions
    ensures var (after, shown) := RevealComplete(db, user, id, actionId).value;
            && id in db.rounds && db.rounds[id].user == user && db.rounds[id].game == Scratch
            && shown == db.rounds[id].(presented := true)
            && (db.rounds[id].presented ==> after == db)
            && after.rounds == db.rounds[id := shown] && after.wallets == db.wallets
            && after.commitments == db.commitments
            && (!db.rounds[id].presented ==>
                  after.actions == db.actions[actionId := ActionRow(user, id,
                                                                    ActionInput(actionId, ScratchReveal, 0, 0),
                                                                    None)])
  {
  }

  /** Two rounds of one player and game cannot both be unfinished. */
  lemma BothBlock(db: Db, i: Id, k: Id)
    requires Inv(db) && i in db.rounds && k in db.rounds && Blocking(db.rounds[i]) && Blocking(db.rounds[k])
    requires db.rounds[i].user == db.rounds[k].user && db.rounds[i].game == db.rounds[k].game
    ensures i == k
  {
    BlockerAgrees(db, db.rounds[i].user, db.rounds[i].game);
    assert BlocksGame(db, i, db.rounds[i].user, db.rounds[i].game);
    assert BlocksGame(db, k, db.rounds[i].user, db.rounds[i].game);
  }

  // ---------------------------------------------------- hands under review

  /** An open hand is marked for review and its pending jobs with it; a hand settled or already marked stays as it
      is. */
  ghost predicate SetAside(db: Db, after: Db, id: Id) {
    && id in db.rounds
    && if db.rounds[id].phase == PlayerTurn && !db.rounds[id].review then
         && after == db.(rounds := db.rounds[id := db.rounds[id].(review := true)], jobs := after.jobs)
         && after.jobs.Keys == db.jobs.Keys
         && (forall k :: k in db.jobs ==>
               after.jobs[k] == if k.0 == id && db.jobs[k].status == Pending then db.jobs[k].(status := NeedsReview)
                                else db.jobs[k])
       else after == db
  }

  /** A hand that is under review or cannot be recovered is not shown, played or resolved: reading it, acting on it or
      working off its ripe job comes to setting it aside. */
  lemma RecoveryFails(db: Db, user: User, id: Id, action: ActionInput, env: Env, hand: Option<int>,
                      engine: Option<Play21>, kind: JobKind, payout: int, ids: seq<Id>)
    requires Inv(db) && id in db.rounds && db.rounds[id].game == Blackjack && (!env.recovered || db.rounds[id].review)
    ensures var read := ReadRound(db, id, env);
            read.Ok? && read.value.1.view == NoHand && read.value.1.round.review && SetAside(db, read.value.0, id)
    ensures user == db.rounds[id].user && user != 0 && PlayerMove(action) && action.id !in db.actions ==>
              var tx := BlackjackAction(db, user, id, action, env, hand, engine);
              tx.Ok? && tx.value.1.None? && SetAside(db, tx.value.0, id)
    ensures Ripe(db, id, kind, env.now) ==>
              var tx := ProcessJob(db, id, kind, env, payout, ids); tx.Ok? && SetAside(db, tx.value.0, id)
  {
    RoundBacked(db, id);
    AsideOnRead(db, id, env);
    AsideOnAction(db, user, id, action, env, hand, engine);
    AsideOnJob(db, id, kind, env, payout, ids);
  }

  lemma AsideOnRead(db: Db, id: Id, env: Env)
    requires id in db.rounds && db.rounds[id].game == Blackjack && (!env.recovered || db.rounds[id].review)
    ensures SetAside(db, AfterRead(db, id, env), id)
    ensures var read := ReadRound(db, id, env);
            read == Ok((AfterRead(db, id, env), Shown(id, db.rounds[id].(review := true), NoHand)))
  {
  }

  lemma AsideOnAction(db: Db, user: User, id: Id, action: ActionInput, env: Env, hand: Option<int>,
                      engine: Option<Play21>)
    requires id in db.rounds && db.rounds[id].game == Blackjack && (!env.recovered || db.rounds[id].review)
    requires db.rounds[id].commitment in db.commitments
    ensures user == db.rounds[id].user && user != 0 && PlayerMove(action) && action.id !in db.actions ==>
              BlackjackAction(db, user, id, action, env, hand, engine) == Ok((AfterRead(db, id, env), None))
  {
  }

  lemma AsideOnJob(db: Db, id: Id, kind: JobKind, env: Env, payout: int, ids: seq<Id>)
    requires id in db.rounds && db.rounds[id].game == Blackjack && (!env.recovered || db.rounds[id].review)
    requires db.rounds[id].commitment in db.commitments
    ensures Ripe(db, id, kind, env.now) ==>
              ProcessJob(db, id, kind, env, payout, ids) == Ok((AfterRead(db, id, env), ()))
  {
  }

  /** A job that failed is due again thirty seconds later, and nothing else has changed. */
  lemma RetryWaits(db: Db, id: Id, kind: JobKind, now: int)
    ensures var after := RetryJob(db, id, kind, now);
            if (id, kind) in db.jobs && db.jobs[(id, kind)].status == Pending then
              && (id, kind) in after.jobs && after == db.(jobs := after.jobs)
              && after.jobs == db.jobs[(id, kind) := db.jobs[(id, kind)].(runAt := after.jobs[(id, kind)].runAt)]
              && (id in db.rounds && db.rounds[id].game == Blackjack ==>
                    forall t :: Ripe(after, id, kind, t) <==> now + 30 <= t)
            else after == db
  {
  }

  /** A step leaves this round as it is. */
  ghost predicate Keeps(db: Db, after: Db, id: Id) {
    id in db.rounds && id in after.rounds && after.rounds[id] == db.rounds[id]
  }

  ghost predicate Frozen(db: Db, id: Id) { id in db.rounds && db.rounds[id].game == Blackjack && db.rounds[id].review }

  lemma ReadKeeps(db: Db, k: Id, env: Env, id: Id)
    requires Frozen(db, id)
    ensures Keeps(db, AfterRead(db, k, env), id)
  {
  }

  lemma CreateKeeps(db: Db, user: User, game: Game, key: string, cid: Id, input: Input, env: Env, source: Source,
                    id: Id)
    requires Inv(db) && Frozen(db, id) && game != Blackjack && ValidConfig(game, env.config)
    requires CreateFast(db, user, game, key, cid, input, env, source).Ok?
    ensures Keeps(db, CreateFast(db, user, game, key, cid, input, env, source).value.0, id)
  {
    CreateForm(db, user, game, key, cid, input, env, source);
    if RoundByKey(db, user, game, key).None? {
      FastSettles(db, user, game, key, cid, input, env, source);
    } else {
      ReadKeeps(db, RoundByKey(db, user, game, key).value, env, id);
      KnownKeyReads(db, user, game, key, cid, input, env);
    }
  }

  lemma KnownKeyReads(db: Db, user: User, game: Game, key: string, cid: Id, input: Input, env: Env)
    requires RoundByKey(db, user, game, key).Some? && Preflight(db, user, game, key, cid, input, env).Ok?
    ensures Preflight(db, user, game, key, cid, input, env).value == Replay(RoundByKey(db, user, game, key).value)
  {
  }

  lemma DealKeeps(db: Db, user: User, key: string, cid: Id, input: Input, env: Env, deal: Play21, id: Id)
    requires Inv(db) && Frozen(db, id) && (deal.settled ==> deal.payout >= 0)
    requires CreateBlackjack(db, user, key, cid, input, env, deal).Ok?
    ensures Keeps(db, CreateBlackjack(db, user, key, cid, input, env, deal).value.0, id)
  {
    DealCheckForm(db, user, key, cid, input, env, deal);
    if RoundByKey(db, user, Blackjack, key).None? {
      if deal.settled {
        DealSettles(db, user, key, cid, input, env, deal);
      } else {
        DealLeavesOpen(db, user, key, cid, input, env, deal);
      }
    } else {
      ReadKeeps(db, RoundByKey(db, user, Blackjack, key).value, env, id);
      KnownKeyReads(db, user, Blackjack, key, cid, input, env);
    }
  }

  lemma ActionKeeps(db: Db, user: User, k: Id, action: ActionInput, env: Env, hand: Option<int>,
                    engine: Option<Play21>, id: Id)
    requires Inv(db) && Frozen(db, id) && EngineOk(db, k, engine)
    requires BlackjackAction(db, user, k, action, env, hand, engine).Ok?
    ensures Keeps(db, BlackjackAction(db, user, k, action, env, hand, engine).value.0, id)
  {
    ActionForm(db, user, k, action, env, hand, engine);
    ReadKeeps(db, k, env, id);
    if MovePreflight(db, user, k, action, env, hand) == Ok(Ready) {
      ReadyNotReviewed(db, user, k, action, env, hand, engine.value);
      if engine.value.settled {
        ActionSettles(db, user, k, action, env, hand, engine.value);
      } else {
        ActionLeavesOpen(db, user, k, action, env, hand, engine.value);
      }
    }
  }

  lemma ReadyNotReviewed(db: Db, user: User, k: Id, action: ActionInput, env: Env, hand: Option<int>, move: Play21)
    requires BlackjackAction(db, user, k, action, env, hand, Some(move)).Ok?
    requires MovePreflight(db, user, k, action, env, hand) == Ok(Ready)
    ensures action.id !in db.actions && k in db.rounds && !db.rounds[k].review
    ensures BlackjackAction(db, user, k, action, env, hand, Some(move)).value.1.Some?
  {
  }

  lemma JobKeeps(db: Db, k: Id, kind: JobKind, env: Env, payout: int, ids: seq<Id>, id: Id)
    requires Inv(db) && Frozen(db, id) && payout >= 0 && ProcessJob(db, k, kind, env, payout, ids).Ok?
    ensures Keeps(db, ProcessJob(db, k, kind, env, payout, ids).value.0, id)
  {
    if Ripe(db, k, kind, env.now) && (!env.recovered || db.rounds[k].review) {
      ReadKeeps(db, k, env, id);
      ReviewedJob(db, k, kind, env, payout, ids);
    } else {
      JobActs(db, k, kind, env, payout, ids);
    }
  }

  lemma ReviewedJob(db: Db, k: Id, kind: JobKind, env: Env, payout: int, ids: seq<Id>)
    requires Ripe(db, k, kind, env.now) && (!env.recovered || db.rounds[k].review)
    requires ProcessJob(db, k, kind, env, payout, ids).Ok?
    ensures ProcessJob(db, k, kind, env, payout, ids).value.0 == AfterRead(db, k, env)
  {
  }

  lemma PageKeeps(db: Db, user: User, game: Game, env: Env, c: Id, roundId: Id, draw: nat, id: Id)
    requires Frozen(db, id) && Bootstrap(db, user, game, env, c, roundId, draw).Ok?
    ensures Keeps(db, Bootstrap(db, user, game, env, c, roundId, draw).value.0, id)
  {
    ViewKeeps(db, user, game, env, id);
    PageForm(db, user, game, env, c, roundId, draw);
    var viewed := Viewed(db, user, game, env);
    if env.entry == Play && Blocker(db, user, game).None? {
      OfferKeeps(viewed, user, game, Bound(env, viewed.prefs[(user, game)]), c, roundId, draw);
    }
  }

  lemma ViewKeeps(db: Db, user: User, game: Game, env: Env, id: Id)
    requires Frozen(db, id)
    ensures Keeps(db, Viewed(db, user, game, env), id) && Frozen(Viewed(db, user, game, env), id)
  {
    var latest := LatestRound(db, user, game);
    if latest.Some? { ReadKeeps(db, latest.value, env, id); }
  }

  lemma OfferKeeps(db: Db, user: User, game: Game, terms: Binding, c: Id, roundId: Id, draw: nat)
    requires NextCommitment(db, user, game, terms, c, roundId, draw).Ok?
    ensures NextCommitment(db, user, game, terms, c, roundId, draw).value.0.rounds == db.rounds
  {
  }

  lemma SeedKeeps(db: Db, user: User, game: Game, seed: string, env: Env, c: Id, roundId: Id, draw: nat)
    requires SetClientSeed(db, user, game, seed, env, c, roundId, draw).Ok?
    ensures SetClientSeed(db, user, game, seed, env, c, roundId, draw).value.0.rounds == db.rounds
  {
    SeedForm(db, user, game, seed, env, c, roundId, draw);
    var q := Reseeded(PreferenceOf(db, user, game, env), seed);
    OfferKeeps(WithPreference(db, user, game, q), user, game, Bound(env, q), c, roundId, draw);
  }

  lemma RevealKeeps(db: Db, user: User, k: Id, actionId: Id, id: Id)
    requires Frozen(db, id) && RevealComplete(db, user, k, actionId).Ok?
    ensures Keeps(db, RevealComplete(db, user, k, actionId).value.0, id)
  {
  }

  lemma CommitKeeps<T>(db: Db, tx: Tx<T>, id: Id)
    requires Frozen(db, id) && (tx.Ok? ==> Keeps(db, tx.value.0, id))
    ensures Keeps(db, Commit(db, tx), id)
  {
  }

  /** The transactions that may open, move or settle rounds. */
  lemma FastStepKeeps(db: Db, op: Op, id: Id)
    requires Inv(db) && Feasible(db, op) && Frozen(db, id) && op.FastOp?
    ensures Keeps(db, Step(db, op), id)
  {
    var tx := CreateFast(db, op.user, op.game, op.key, op.cid, op.input, op.env, op.source);
    if tx.Ok? { CreateKeeps(db, op.user, op.game, op.key, op.cid, op.input, op.env, op.source, id); }
    CommitKeeps(db, tx, id);
  }

  lemma DealStepKeeps(db: Db, op: Op, id: Id)
    requires Inv(db) && Feasible(db, op) && Frozen(db, id) && op.DealOp?
    ensures Keeps(db, Step(db, op), id)
  {
    var tx := CreateBlackjack(db, op.user, op.key, op.cid, op.input, op.env, op.deal);
    if tx.Ok? { DealKeeps(db, op.user, op.key, op.cid, op.input, op.env, op.deal, id); }
    CommitKeeps(db, tx, id);
  }

  lemma MoveStepKeeps(db: Db, op: Op, id: Id)
    requires Inv(db) && Feasible(db, op) && Frozen(db, id) && op.MoveOp?
    ensures Keeps(db, Step(db, op), id)
  {
    var tx := BlackjackAction(db, op.user, op.round, op.action, op.env, op.hand, op.engine);
    if tx.Ok? { ActionKeeps(db, op.user, op.round, op.action, op.env, op.hand, op.engine, id); }
    CommitKeeps(db, tx, id);
  }

  lemma JobStepKeeps(db: Db, op: Op, id: Id)
    requires Inv(db) && Feasible(db, op) && Frozen(db, id) && op.JobOp?
    ensures Keeps(db, Step(db, op), id)
  {
    var tx := ProcessJob(db, op.round, op.kind, op.env, op.payout, op.ids);
    if tx.Ok? { JobKeeps(db, op.round, op.kind, op.env, op.payout, op.ids, id); }
    CommitKeeps(db, tx, id);
  }

  /** The others. */
  lemma OtherKeeps(db: Db, op: Op, id: Id)
    requires Frozen(db, id) && !(op.FastOp? || op.DealOp? || op.MoveOp? || op.JobOp?)
    ensures Keeps(db, Step(db, op), id)
  {
    match op
    case BootstrapOp(user, game, env, c, roundId, draw) =>
      var ready := EnsureAccount(db, user);
      if Bootstrap(ready, user, game, env, c, roundId, draw).Ok? {
        PageKeeps(ready, user, game, env, c, roundId, draw, id);
      }
      CommitKeeps(ready, Bootstrap(ready, user, game, env, c, roundId, draw), id);
    case SeedOp(user, game, seed, env, c, roundId, draw) =>
      if SetClientSeed(db, user, game, seed, env, c, roundId, draw).Ok? {
        SeedKeeps(db, user, game, seed, env, c, roundId, draw);
      }
      CommitKeeps(db, SetClientSeed(db, user, game, seed, env, c, roundId, draw), id);
    case RevealOp(user, round, actionId) =>
      if RevealComplete(db, user, round, actionId).Ok? { RevealKeeps(db, user, round, actionId, id); }
      CommitKeeps(db, RevealComplete(db, user, round, actionId), id);
    case ReadOp(round, env) => ReadKeeps(db, round, env, id);
    case RetryOp(_, _, _) =>
    case TransferOp(user, delta) => CommitKeeps(db, Transfer(db, user, delta), id);
  }

  lemma AnyKeeps(db: Db, op: Op, id: Id)
    requires Inv(db) && Feasible(db, op) && Frozen(db, id)
    ensures Keeps(db, Step(db, op), id)
  {
    if op.FastOp? {
      FastStepKeeps(db, op, id);
    } else if op.DealOp? {
      DealStepKeeps(db, op, id);
    } else if op.MoveOp? {
      MoveStepKeeps(db, op, id);
    } else if op.JobOp? {
      JobStepKeeps(db, op, id);
    } else {
      OtherKeeps(db, op, id);
    }
  }

  /** A hand under review is never touched again: no action, job, read or other request of any run changes its row. */
  lemma {:induction false} ReviewFreezes(db: Db, ops: seq<Op>, id: Id)
    requires Inv(db) && Runs(db, ops) && Frozen(db, id)
    ensures Keeps(db, Run(db, ops), id)
    decreases |ops|
  {
    if ops != [] {
      AnyKeeps(db, ops[0], id);
      StepSound(db, ops[0]);
      ReviewFreezes(Step(db, ops[0]), ops[1..], id);
    }
  }
}
