/** What every run of the game transactions keeps: the invariant of the stored rows and its preservation. */
module GameInvariant {
  import opened Numbers
  import opened Wrappers
  import opened Wagers
  import opened FastGames
  import opened Outcomes
  import opened GameStore

  predicate SameSlot(a: Commitment, b: Commitment) { a.user == b.user && a.game == b.game }

  /** The cursor is beyond every issued nonce, or exhausted at the last one. */
  ghost predicate CursorsAhead(db: Db) {
    && (forall k :: k in db.cursors ==>
          db.cursors[k].next <= MAX_INT64 && (db.cursors[k].exhausted ==> db.cursors[k].next == MAX_INT64))
    && (forall c :: c in db.commitments ==>
          var x := db.commitments[c];
          && (x.user, x.game) in db.cursors
          && var cursor := db.cursors[(x.user, x.game)];
             x.nonce < cursor.next || (x.nonce == cursor.next && cursor.exhausted))
  }

  ghost predicate NoncesDistinct(db: Db) {
    forall c, d :: c in db.commitments && d in db.commitments && c != d
                   && SameSlot(db.commitments[c], db.commitments[d])
      ==> db.commitments[c].nonce != db.commitments[d].nonce
  }

  ghost predicate AvailableIsLast(db: Db) {
    forall c, d :: c in db.commitments && d in db.commitments && SameSlot(db.commitments[c], db.commitments[d])
                   && db.commitments[c].state == Available
      ==> db.commitments[d].nonce <= db.commitments[c].nonce
  }

  ghost predicate RoundIdsDistinct(db: Db) {
    forall c, d :: c in db.commitments && d in db.commitments && c != d ==>
      db.commitments[c].roundId != db.commitments[d].roundId
  }

  /** A round carries the terms of the one commitment that reserved its id; the seed is out iff it is settled. */
  ghost predicate RoundMatches(db: Db, id: Id, r: Round) {
    && r.commitment in db.commitments
    && var c := db.commitments[r.commitment];
       && c.roundId == id && c.user == r.user && c.game == r.game && c.nonce == r.nonce
       && c.state == (if r.phase == Settled then Revealed else Consumed)
       && (r.phase == Settled && r.game == Blackjack ==> r.fair == BonusOf(c, r.initial))
  }

  ghost predicate RoundsMatch(db: Db) {
    forall id :: id in db.rounds ==> RoundMatches(db, id, db.rounds[id])
  }

  ghost predicate SpentHasRound(db: Db) {
    forall c :: c in db.commitments && db.commitments[c].state in {Consumed, Revealed}
      ==> db.commitments[c].roundId in db.rounds && db.rounds[db.commitments[c].roundId].commitment == c
  }

  ghost predicate BlockerIsLast(db: Db) {
    forall i, j :: i in db.rounds && j in db.rounds && InGame(db.rounds[j], db.rounds[i].user, db.rounds[i].game)
                   && Blocking(db.rounds[i])
      ==> db.rounds[j].nonce <= db.rounds[i].nonce
  }

  ghost predicate KeysDistinct(db: Db) {
    forall i, j :: i in db.rounds && j in db.rounds && InGame(db.rounds[j], db.rounds[i].user, db.rounds[i].game)
                   && db.rounds[i].key == db.rounds[j].key
      ==> i == j
  }

  predicate WalletOk(w: Wallet) {
    0 <= w.balance <= MAX_INT64 && 0 <= w.ledgerSeq <= MAX_INT64 && 0 <= w.version <= MAX_INT64
  }

  function Net(r: Round): int { r.payout - r.withheld - r.stake }

  /** Amounts of a round: at most eight wagers at stake, nothing paid while open, no principal withheld. */
  predicate AmountsOk(r: Round) {
    && 0 < r.initial <= r.stake
    && (r.game == Blackjack ==> r.stake <= 8 * r.initial && 17 * r.initial <= MAX_INT64)
    && (r.phase == PlayerTurn ==> r.payout == 0 && r.withheld == 0)
    && 0 <= r.fair && (r.phase == Settled ==> r.fair <= r.payout <= MAX_INT64)
    && 0 <= r.payout && 0 <= r.withheld <= Max(r.payout - r.stake, 0)
  }

  ghost predicate WalletsOk(db: Db) {
    && (forall u :: u in db.wallets ==> WalletOk(db.wallets[u]))
    && (forall id :: id in db.rounds ==> db.rounds[id].user in db.wallets && AmountsOk(db.rounds[id]))
  }

  /** A supply event exists exactly for the settled rounds with a net change, and records it. */
  ghost predicate SupplyExact(db: Db) {
    && (forall id :: id in db.supply ==> id in db.rounds)
    && (forall id :: id in db.rounds ==>
          var r := db.rounds[id];
          if r.phase == Settled && Net(r) != 0 then id in db.supply && db.supply[id] == Net(r) else id !in db.supply)
  }

  ghost predicate ActionsRefer(db: Db) {
    forall a :: a in db.actions ==>
      db.actions[a].round in db.rounds && db.rounds[db.actions[a].round].user == db.actions[a].user
  }

  ghost predicate JobsRefer(db: Db) {
    forall k :: k in db.jobs ==> k.0 in db.rounds && (db.jobs[k].status == Pending ==> Live(db.rounds[k.0]))
  }

  predicate Live(r: Round) { r.phase == PlayerTurn && !r.review }

  ghost predicate AwaitsResolve(db: Db, id: Id) {
    (id, AutoResolve) in db.jobs && db.jobs[(id, AutoResolve)].status == Pending
  }

  /** Between transactions only blackjack is open, and every live hand has its auto-resolve job waiting. */
  ghost predicate AtRest(db: Db, except: set<Id>) {
    forall id :: id in db.rounds && id !in except && db.rounds[id].phase == PlayerTurn
      ==> db.rounds[id].game == Blackjack && (Live(db.rounds[id]) ==> AwaitsResolve(db, id))
  }

  ghost predicate CommitmentsOk(db: Db) {
    CursorsAhead(db) && NoncesDistinct(db) && AvailableIsLast(db) && RoundIdsDistinct(db)
  }

  ghost predicate LinksOk(db: Db) { RoundsMatch(db) && SpentHasRound(db) }

  /** The typed result of every round can be read back. */
  ghost predicate RowsReadable(db: Db) {
    forall id :: id in db.rounds ==> Readable(db.rounds[id].game, db.rounds[id].rows)
  }

  ghost predicate RoundsOk(db: Db) { BlockerIsLast(db) && KeysDistinct(db) && RowsReadable(db) }

  ghost predicate MoneyOk(db: Db) { WalletsOk(db) && SupplyExact(db) }

  ghost predicate RefsOk(db: Db) { ActionsRefer(db) && JobsRefer(db) }

  /** Holds inside a transaction too. */
  ghost predicate Core(db: Db) { CommitmentsOk(db) && LinksOk(db) && RoundsOk(db) && MoneyOk(db) && RefsOk(db) }

  ghost predicate Inv(db: Db) { Core(db) && AtRest(db, {}) }

  const EMPTY := Db(map[], map[], map[], map[], map[], map[], map[], map[])

  lemma EmptyInv()
    ensures Inv(EMPTY)
  {
  }

  // -------------------------------------------------------------- accounts

  function BalanceOf(): Wallet -> int { (w: Wallet) => w.balance }
  function OpenStakes(): Round -> int { (r: Round) => OpenStake(r) }
  function Amounts(): int -> int { (x: int) => x }

  /** Chips held, plus stakes in open rounds, less what net supply events created. */
  ghost function Chips(db: Db): int {
    SumOf(db.wallets, BalanceOf()) + SumOf(db.rounds, OpenStakes()) - SumOf(db.supply, Amounts())
  }

  // ------------------------------------------------------------- OpenRound

  /** What a create has checked before it opens its round. */
  ghost predicate MayOpen(db: Db, w: Wallet, r: Round) {
    && HoldsAvailable(db, r.commitment, r.user, r.game)
    && r.nonce == db.commitments[r.commitment].nonce
    && !Blocked(db, r.user, r.game)
    && RoundByKey(db, r.user, r.game, r.key).None?
    && r.user in db.wallets && WalletOk(w) && w.balance == db.wallets[r.user].balance - r.stake
    && r.phase == PlayerTurn && !r.review && AmountsOk(r) && Readable(r.game, r.rows)
  }

  lemma OpenedIdIsNew(db: Db, w: Wallet, r: Round)
    requires LinksOk(db) && CommitmentsOk(db) && MayOpen(db, w, r)
    ensures db.commitments[r.commitment].roundId !in db.rounds
  {
  }

  /** Commitments change only their state, and none becomes available again. */
  ghost predicate OnlyStates(db: Db, db': Db) {
    && db'.commitments.Keys == db.commitments.Keys && db'.cursors == db.cursors
    && forall c :: c in db.commitments ==>
         && db'.commitments[c].(state := db.commitments[c].state) == db.commitments[c]
         && (db'.commitments[c].state == Available ==> db.commitments[c].state == Available)
  }

  lemma OnlyStatesKeeps(db: Db, db': Db)
    requires CommitmentsOk(db) && OnlyStates(db, db')
    ensures CommitmentsOk(db')
  {
    forall c, d | c in db'.commitments && d in db'.commitments
      ensures c != d && SameSlot(db'.commitments[c], db'.commitments[d]) ==>
                db'.commitments[c].nonce != db'.commitments[d].nonce
      ensures c != d ==> db'.commitments[c].roundId != db'.commitments[d].roundId
      ensures SameSlot(db'.commitments[c], db'.commitments[d]) && db'.commitments[c].state == Available
              ==> db'.commitments[d].nonce <= db'.commitments[c].nonce
    {
      assert SameSlot(db'.commitments[c], db'.commitments[d]) <==> SameSlot(db.commitments[c], db.commitments[d]);
    }
  }

  lemma OpenKeepsLinks(db: Db, w: Wallet, r: Round)
    requires CommitmentsOk(db) && LinksOk(db) && MayOpen(db, w, r)
    ensures LinksOk(OpenRound(db, w, r))
  {
    OpenedIdIsNew(db, w, r);
  }

  lemma OpenKeepsRounds(db: Db, w: Wallet, r: Round)
    requires CommitmentsOk(db) && LinksOk(db) && RoundsOk(db) && MayOpen(db, w, r)
    ensures RoundsOk(OpenRound(db, w, r))
  {
    OpenedIdIsNew(db, w, r);
    forall j | j in db.rounds && InGame(db.rounds[j], r.user, r.game) ensures PassedBy(db.rounds[j], r) {
      assert RoundMatches(db, j, db.rounds[j]);
      assert !BlocksGame(db, j, r.user, r.game);
      assert !HasKey(db, j, r.user, r.game, r.key);
    }
    AddedKeepsRounds(db, OpenRound(db, w, r), db.commitments[r.commitment].roundId, r);
  }

  /** An earlier round that neither blocks nor repeats a new one. */
  predicate PassedBy(earlier: Round, r: Round) {
    earlier.nonce <= r.nonce && !Blocking(earlier) && earlier.key != r.key
  }

  lemma AddedKeepsRounds(db: Db, db': Db, id: Id, r: Round)
    requires RoundsOk(db) && id !in db.rounds && db'.rounds == db.rounds[id := r] && Readable(r.game, r.rows)
    requires forall j :: j in db.rounds && InGame(db.rounds[j], r.user, r.game) ==> PassedBy(db.rounds[j], r)
    ensures RoundsOk(db')
  {
  }

  lemma OpenKeepsMoney(db: Db, w: Wallet, r: Round)
    requires MoneyOk(db) && MayOpen(db, w, r) && db.commitments[r.commitment].roundId !in db.rounds
    ensures MoneyOk(OpenRound(db, w, r))
  {
  }

  lemma OpenKeepsRefs(db: Db, w: Wallet, r: Round)
    requires RefsOk(db) && MayOpen(db, w, r) && db.commitments[r.commitment].roundId !in db.rounds
    ensures RefsOk(OpenRound(db, w, r))
  {
  }

  lemma OpenKeepsChips(db: Db, w: Wallet, r: Round)
    requires CommitmentsOk(db) && LinksOk(db) && MayOpen(db, w, r)
    ensures Chips(OpenRound(db, w, r)) == Chips(db)
  {
    OpenedIdIsNew(db, w, r);
    SumOfUpdate(db.wallets, BalanceOf(), r.user, w);
    SumOfUpdate(db.rounds, OpenStakes(), db.commitments[r.commitment].roundId, r);
  }

  lemma OpenKeeps(db: Db, w: Wallet, r: Round)
    requires Inv(db) && MayOpen(db, w, r)
    ensures var db' := OpenRound(db, w, r); var id := db.commitments[r.commitment].roundId;
            Core(db') && AtRest(db', {id}) && Chips(db') == Chips(db) && id !in db.rounds
  {
    OpenedIdIsNew(db, w, r);
    OnlyStatesKeeps(db, OpenRound(db, w, r));
    OpenKeepsLinks(db, w, r);
    OpenKeepsRounds(db, w, r);
    OpenKeepsMoney(db, w, r);
    OpenKeepsRefs(db, w, r);
    OpenKeepsChips(db, w, r);
    OpenKeepsRest(db, w, r);
  }

  lemma OpenKeepsRest(db: Db, w: Wallet, r: Round)
    requires AtRest(db, {}) && MayOpen(db, w, r) && db.commitments[r.commitment].roundId !in db.rounds
    ensures AtRest(OpenRound(db, w, r), {db.commitments[r.commitment].roundId})
  {
  }

  // ------------------------------------------------------------ RaiseStake

  /** Rounds changed only in amounts, mark and deadline keep every structural conjunct. */
  ghost predicate SameShape(r: Round, r': Round) {
    && r'.user == r.user && r'.game == r.game && r'.commitment == r.commitment && r'.nonce == r.nonce && r'.key == r.key
    && r'.phase == r.phase && (Blocking(r') ==> Blocking(r))
    && r'.initial == r.initial && (r.phase == Settled ==> r'.fair == r.fair) && r'.rows == r.rows
  }

  ghost predicate SameShapes(db: Db, db': Db) {
    && db'.commitments == db.commitments && db'.rounds.Keys == db.rounds.Keys
    && forall id :: id in db.rounds ==> SameShape(db.rounds[id], db'.rounds[id])
  }

  lemma SameShapeKeeps(db: Db, db': Db)
    requires CommitmentsOk(db) && LinksOk(db) && RoundsOk(db)
    requires SameShapes(db, db') && db'.cursors == db.cursors
    ensures CommitmentsOk(db') && LinksOk(db') && RoundsOk(db')
  {
    ShapesKeepLinks(db, db');
    ShapesKeepRounds(db, db');
  }

  lemma ShapesKeepLinks(db: Db, db': Db)
    requires LinksOk(db) && SameShapes(db, db')
    ensures LinksOk(db')
  {
    forall id | id in db'.rounds ensures RoundMatches(db', id, db'.rounds[id]) {
      assert SameShape(db.rounds[id], db'.rounds[id]) && RoundMatches(db, id, db.rounds[id]);
    }
    forall c | c in db'.commitments && db'.commitments[c].state in {Consumed, Revealed}
      ensures db'.commitments[c].roundId in db'.rounds && db'.rounds[db'.commitments[c].roundId].commitment == c
    {
      var id := db.commitments[c].roundId;
      assert id in db.rounds && SameShape(db.rounds[id], db'.rounds[id]);
    }
  }

  lemma ShapesKeepRounds(db: Db, db': Db)
    requires RoundsOk(db) && SameShapes(db, db')
    ensures RoundsOk(db')
  {
    forall i, j | i in db'.rounds && j in db'.rounds && InGame(db'.rounds[j], db'.rounds[i].user, db'.rounds[i].game)
      ensures Blocking(db'.rounds[i]) ==> db'.rounds[j].nonce <= db'.rounds[i].nonce
      ensures db'.rounds[i].key == db'.rounds[j].key ==> i == j
    {
      assert SameShape(db.rounds[i], db'.rounds[i]) && SameShape(db.rounds[j], db'.rounds[j]);
      assert InGame(db.rounds[j], db.rounds[i].user, db.rounds[i].game);
    }
  }

  ghost predicate MayRaise(db: Db, w: Wallet, id: Id, added: int) {
    && id in db.rounds && db.rounds[id].phase == PlayerTurn && db.rounds[id].game == Blackjack
    && db.rounds[id].user in db.wallets
    && WalletOk(w) && w.balance == db.wallets[db.rounds[id].user].balance - added
    && 0 <= added && db.rounds[id].stake + added <= 8 * db.rounds[id].initial
  }

  lemma RaiseKeepsMoney(db: Db, w: Wallet, id: Id, added: int, due: int)
    requires MoneyOk(db) && RefsOk(db) && MayRaise(db, w, id, added)
    ensures MoneyOk(RaiseStake(db, w, id, added, due)) && RefsOk(RaiseStake(db, w, id, added, due))
  {
  }

  lemma RaiseKeepsChips(db: Db, w: Wallet, id: Id, added: int, due: int)
    requires MayRaise(db, w, id, added)
    ensures Chips(RaiseStake(db, w, id, added, due)) == Chips(db)
  {
    var db' := RaiseStake(db, w, id, added, due);
    SumOfUpdate(db.wallets, BalanceOf(), db.rounds[id].user, w);
    SumOfUpdate(db.rounds, OpenStakes(), id, db'.rounds[id]);
  }

  lemma RestKeeps(db: Db, db': Db, except: set<Id>)
    requires AtRest(db, except) && db'.rounds.Keys == db.rounds.Keys
    requires forall id :: id in db.rounds && id !in except ==>
               && db'.rounds[id].game == db.rounds[id].game
               && (db'.rounds[id].phase == PlayerTurn ==> db.rounds[id].phase == PlayerTurn)
               && (Live(db'.rounds[id]) ==> Live(db.rounds[id]) && (AwaitsResolve(db, id) ==> AwaitsResolve(db', id)))
    ensures AtRest(db', except)
  {
  }

  lemma RaiseKeepsShape(db: Db, w: Wallet, id: Id, added: int, due: int)
    requires CommitmentsOk(db) && LinksOk(db) && RoundsOk(db) && MayRaise(db, w, id, added)
    ensures var db' := RaiseStake(db, w, id, added, due); CommitmentsOk(db') && LinksOk(db') && RoundsOk(db')
  {
    SameShapeKeeps(db, RaiseStake(db, w, id, added, due));
  }

  lemma RaiseKeepsRest(db: Db, w: Wallet, id: Id, added: int, due: int)
    requires AtRest(db, {}) && MayRaise(db, w, id, added)
    ensures AtRest(RaiseStake(db, w, id, added, due), {})
  {
    RestKeeps(db, RaiseStake(db, w, id, added, due), {});
  }

  lemma RaiseKeeps(db: Db, w: Wallet, id: Id, added: int, due: int)
    requires Inv(db) && MayRaise(db, w, id, added)
    ensures var db' := RaiseStake(db, w, id, added, due); Inv(db') && Chips(db') == Chips(db)
  {
    RaiseKeepsShape(db, w, id, added, due);
    RaiseKeepsMoney(db, w, id, added, due);
    RaiseKeepsChips(db, w, id, added, due);
    RaiseKeepsRest(db, w, id, added, due);
  }

  // ------------------------------------------------------------ CloseRound

  ghost predicate MayClose(db: Db, w: Wallet, id: Id, payout: int, withheld: int) {
    && id in db.rounds && db.rounds[id].phase == PlayerTurn
    && 0 <= payout <= MAX_INT64 && 0 <= withheld <= Max(payout - db.rounds[id].stake, 0)
    && 0 <= db.rounds[id].fair <= payout && db.rounds[id].user in db.wallets
    && (db.rounds[id].game == Blackjack ==>
          && db.rounds[id].commitment in db.commitments
          && db.rounds[id].fair == BonusOf(db.commitments[db.rounds[id].commitment], db.rounds[id].initial))
    && WalletOk(w) && w.balance == db.wallets[db.rounds[id].user].balance + payout - withheld
  }

  lemma CloseKeepsCommitments(db: Db, w: Wallet, id: Id, payout: int, withheld: int)
    requires CommitmentsOk(db) && LinksOk(db) && MayClose(db, w, id, payout, withheld)
    ensures CommitmentsOk(CloseRound(db, w, id, payout, withheld))
  {
    OnlyStatesKeeps(db, CloseRound(db, w, id, payout, withheld));
  }

  lemma CloseKeepsLinks(db: Db, w: Wallet, id: Id, payout: int, withheld: int)
    requires CommitmentsOk(db) && LinksOk(db) && MayClose(db, w, id, payout, withheld)
    ensures LinksOk(CloseRound(db, w, id, payout, withheld))
  {
    var db' := CloseRound(db, w, id, payout, withheld);
    forall k | k in db'.rounds ensures RoundMatches(db', k, db'.rounds[k]) {
      assert RoundMatches(db, k, db.rounds[k]);
    }
  }

  lemma CloseKeepsRounds(db: Db, w: Wallet, id: Id, payout: int, withheld: int)
    requires LinksOk(db) && RoundsOk(db) && MayClose(db, w, id, payout, withheld)
    ensures RoundsOk(CloseRound(db, w, id, payout, withheld))
  {
    var db' := CloseRound(db, w, id, payout, withheld);
    forall i, j | i in db'.rounds && j in db'.rounds && InGame(db'.rounds[j], db'.rounds[i].user, db'.rounds[i].game)
      ensures Blocking(db'.rounds[i]) ==> db'.rounds[j].nonce <= db'.rounds[i].nonce
      ensures db'.rounds[i].key == db'.rounds[j].key ==> i == j
    {
      assert InGame(db.rounds[j], db.rounds[i].user, db.rounds[i].game);
    }
  }

  lemma CloseKeepsMoney(db: Db, w: Wallet, id: Id, payout: int, withheld: int)
    requires LinksOk(db) && MoneyOk(db) && MayClose(db, w, id, payout, withheld)
    ensures MoneyOk(CloseRound(db, w, id, payout, withheld))
  {
    CloseKeepsWallets(db, w, id, payout, withheld);
    CloseKeepsSupply(db, w, id, payout, withheld);
  }

  lemma CloseKeepsWallets(db: Db, w: Wallet, id: Id, payout: int, withheld: int)
    requires WalletsOk(db) && MayClose(db, w, id, payout, withheld) && db.rounds[id].commitment in db.commitments
    ensures WalletsOk(CloseRound(db, w, id, payout, withheld))
  {
  }

  lemma CloseKeepsSupply(db: Db, w: Wallet, id: Id, payout: int, withheld: int)
    requires SupplyExact(db) && MayClose(db, w, id, payout, withheld) && db.rounds[id].commitment in db.commitments
    ensures SupplyExact(CloseRound(db, w, id, payout, withheld))
  {
  }

  lemma CloseKeepsRefs(db: Db, w: Wallet, id: Id, payout: int, withheld: int)
    requires LinksOk(db) && RefsOk(db) && MayClose(db, w, id, payout, withheld)
    ensures RefsOk(CloseRound(db, w, id, payout, withheld))
  {
  }

  lemma CloseKeepsChips(db: Db, w: Wallet, id: Id, payout: int, withheld: int)
    requires MayClose(db, w, id, payout, withheld) && db.rounds[id].commitment in db.commitments && id !in db.supply
    ensures Chips(CloseRound(db, w, id, payout, withheld)) == Chips(db)
  {
    var r := db.rounds[id];
    var r' := r.(payout := payout, withheld := withheld, phase := Settled);
    SumOfUpdate(db.wallets, BalanceOf(), r.user, w);
    SumOfUpdate(db.rounds, OpenStakes(), id, r');
    SumOfUpdate(db.supply, Amounts(), id, Net(r'));
    CloseForm(db, w, id, payout, withheld);
  }

  lemma CloseForm(db: Db, w: Wallet, id: Id, payout: int, withheld: int)
    requires id in db.rounds && db.rounds[id].commitment in db.commitments
    ensures var r := db.rounds[id];
            var r' := r.(payout := payout, withheld := withheld, phase := Settled);
            var db' := CloseRound(db, w, id, payout, withheld);
            && db'.wallets == db.wallets[r.user := w] && db'.rounds == db.rounds[id := r']
            && db'.supply == if Net(r') == 0 then db.supply else db.supply[id := Net(r')]
  {
  }

  lemma CloseKeepsRest(db: Db, w: Wallet, id: Id, payout: int, withheld: int)
    requires LinksOk(db) && AtRest(db, {id}) && MayClose(db, w, id, payout, withheld)
    ensures AtRest(CloseRound(db, w, id, payout, withheld), {})
  {
    RestKeeps(db, CloseRound(db, w, id, payout, withheld), {id});
  }

  lemma CloseKeeps(db: Db, w: Wallet, id: Id, payout: int, withheld: int)
    requires Core(db) && AtRest(db, {id}) && MayClose(db, w, id, payout, withheld)
    ensures db.rounds[id].commitment in db.commitments
    ensures var db' := CloseRound(db, w, id, payout, withheld); Inv(db') && Chips(db') == Chips(db)
  {
    CloseKeepsCommitments(db, w, id, payout, withheld);
    CloseKeepsLinks(db, w, id, payout, withheld);
    CloseKeepsRounds(db, w, id, payout, withheld);
    CloseKeepsMoney(db, w, id, payout, withheld);
    CloseKeepsRefs(db, w, id, payout, withheld);
    CloseKeepsChips(db, w, id, payout, withheld);
    CloseKeepsRest(db, w, id, payout, withheld);
  }
}
