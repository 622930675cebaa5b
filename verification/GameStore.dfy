/** The durable state of Direct Play and its transactions, as functions of the stored rows:
    internal/games/commitment.go, service.go, blackjack_service.go, blackjack_jobs.go, economy.go, read.go. */
module GameStore {
  import opened Numbers
  import opened Wrappers
  import opened Wagers
  import opened FastGames
  import opened Outcomes
  import FairReturn
  import PayoutCap

  type User = nat
  type Id = nat

  datatype CommitmentState = Available | Consumed | Revealed | Invalidated
  datatype Binding = Binding(runtime: string, fairRules: bool, clientSeed: string, clientVersion: nat)
  /** `draw` is what the hidden seed answers for the fair return. */
  datatype Commitment = Commitment(user: User, game: Game, nonce: nat, roundId: Id, binding: Binding, draw: nat,
                                   state: CommitmentState)
  datatype Cursor = Cursor(next: nat, exhausted: bool)
  datatype Preference = Preference(seed: string, version: nat)
  datatype Wallet = Wallet(balance: int, ledgerSeq: int, version: int)
  datatype Phase = PlayerTurn | Settled
  datatype Round = Round(user: User, game: Game, commitment: Id, nonce: nat, key: string, request: Input,
                         initial: nat, stake: int, payout: int, withheld: int, fair: int, phase: Phase,
                         presented: bool, review: bool, autoResolveAt: int, version: nat, rows: Rows)
  datatype ActionKind = Hit | Stand | Double | Split | SystemAutoStand | ScratchReveal
  datatype ActionInput = ActionInput(id: Id, kind: ActionKind, hand: Id, expectedVersion: nat)
  datatype ActionRow = ActionRow(user: User, round: Id, input: ActionInput, response: Option<Round>)
  datatype JobKind = AutoResolve | Recovery
  datatype JobStatus = Pending | Done | NeedsReview
  datatype Job = Job(id: Id, status: JobStatus, runAt: int)

  /** Net supply is recorded per round: positive for issuance, negative for a burn. */
  datatype Db = Db(wallets: map<User, Wallet>, cursors: map<(User, Game), Cursor>, prefs: map<(User, Game), Preference>,
                   commitments: map<Id, Commitment>, rounds: map<Id, Round>, supply: map<Id, int>,
                   actions: map<Id, ActionRow>, jobs: map<(Id, JobKind), Job>)

  datatype Error = InvalidInput | IdempotencyConflict | Maintenance | Unavailable | ScratchIncomplete | ActiveRound
                 | CommitmentInvalid | WalletNotFound | Insufficient | Overflow | EconomyFault | NonceExhausted
                 | NotFound | EngineRefused | Collision

  datatype Entry = Play | InMaintenance | Closed
  datatype Economy = Economy(singleMax: int, assetCap: int)

  /** What a transaction reads beside these rows: gates, configuration, economy policy, other assets, clock, fresh
      ids. */
  datatype Env = Env(maintenance: bool, entry: Entry, runtime: string, config: Config, economy: Option<Economy>,
                     otherAssets: nat, healthy: bool, recovered: bool, fairRules: bool, configured: bool, now: int,
                     freshSeed: string, jobIds: (Id, Id))

  type Tx<T> = Result<(Db, T), Error>

  datatype View = Fast(outcome: Outcome) | Hand | NoHand

  /** A round as its player is shown it: the stored amounts, and its result or, for blackjack, whether there is a hand
      to show. */
  datatype Shown = Shown(id: Id, round: Round, view: View)

  // --------------------------------------------------------------- lookups

  predicate InGame(r: Round, user: User, game: Game) { r.user == user && r.game == game }

  ghost predicate HasKey(db: Db, id: Id, user: User, game: Game, key: string) {
    id in db.rounds && InGame(db.rounds[id], user, game) && db.rounds[id].key == key
  }

  ghost function RoundByKey(db: Db, user: User, game: Game, key: string): (r: Option<Id>)
    ensures r.Some? ==> HasKey(db, r.value, user, game, key)
    ensures r.None? ==> forall id :: !HasKey(db, id, user, game, key)
  {
    if exists id :: HasKey(db, id, user, game, key)
    then var id :| HasKey(db, id, user, game, key); Some(id)
    else None
  }

  predicate HoldsAvailable(db: Db, c: Id, user: User, game: Game) {
    && c in db.commitments && db.commitments[c].user == user && db.commitments[c].game == game
    && db.commitments[c].state == Available
  }

  ghost function AvailableCommitment(db: Db, user: User, game: Game): (r: Option<Id>)
    ensures r.Some? ==> HoldsAvailable(db, r.value, user, game)
    ensures r.None? ==> forall c :: !HoldsAvailable(db, c, user, game)
  {
    if exists c :: HoldsAvailable(db, c, user, game)
    then var c :| HoldsAvailable(db, c, user, game); Some(c)
    else None
  }

  /** A round its player must finish first: an open blackjack hand or an unrevealed ticket. */
  predicate Blocking(r: Round) { r.phase == PlayerTurn || (r.game == Scratch && !r.presented) }

  ghost predicate BlocksGame(db: Db, id: Id, user: User, game: Game) {
    id in db.rounds && InGame(db.rounds[id], user, game) && Blocking(db.rounds[id])
  }

  /** The search over all of a user's rounds that a create makes. */
  ghost predicate Blocked(db: Db, user: User, game: Game) { exists id :: BlocksGame(db, id, user, game) }

  ghost predicate IsLatest(db: Db, id: Id, user: User, game: Game) {
    && id in db.rounds && InGame(db.rounds[id], user, game)
    && forall k :: k in db.rounds && InGame(db.rounds[k], user, game) ==> db.rounds[k].nonce <= db.rounds[id].nonce
  }

  /** The round with the greatest nonce, which is all a bootstrap looks at. */
  ghost function LatestRound(db: Db, user: User, game: Game): (r: Option<Id>)
    ensures r.Some? ==> IsLatest(db, r.value, user, game)
  {
    if exists id :: IsLatest(db, id, user, game)
    then var id :| IsLatest(db, id, user, game); Some(id)
    else None
  }

  function OpenStake(r: Round): int { if r.phase == PlayerTurn then r.stake else 0 }

  function OpenStakeOf(user: User): Round -> int { (r: Round) => if r.user == user then OpenStake(r) else 0 }

  // --------------------------------------------------------------- wallets

  function Apply(w: Wallet, delta: int): Result<Wallet, Error> {
    if delta < 0 && delta < -w.balance then Err(Insufficient)
    else if (delta > 0 && w.balance > MAX_INT64 - delta) || w.ledgerSeq == MAX_INT64 || w.version == MAX_INT64
      then Err(Overflow)
    else Ok(Wallet(w.balance + delta, w.ledgerSeq + 1, w.version + 1))
  }

  /** The unified assets of a user, as read by the economy policy. */
  ghost function TotalAssets(db: Db, user: User, balance: int, env: Env): Result<int, Error> {
    var total := env.otherAssets + balance + SumOf(db.rounds, OpenStakeOf(user));
    if !env.healthy then Err(EconomyFault) else if total > MAX_INT64 then Err(Overflow) else Ok(total)
  }

  ghost function ObserveEconomy(db: Db, user: User, balance: int, stake: int, env: Env): Result<int, Error> {
    match env.economy
    case None => Ok(0)
    case Some(e) => if stake > e.singleMax then Err(InvalidInput) else TotalAssets(db, user, balance, env)
  }

  /** What the cap withholds from a payout. */
  function Withheld(env: Env, total: int, stake: int, gross: int): Result<int, Error> {
    match env.economy
    case None => Ok(0)
    case Some(e) =>
      match PayoutCap.CapPayout(e.assetCap, total, stake, gross)
      case Ok(c) => Ok(c.withheld)
      case Err(_) => Err(Overflow)
  }

  function Credit(w: Wallet, amount: int): Result<Wallet, Error> {
    if amount > 0 then Apply(w, amount) else Ok(w)
  }

  datatype Payment = Payment(payout: int, withheld: int, paid: Wallet)

  /** Clips a payout and credits what is left of it. */
  function Pay(w: Wallet, env: Env, total: int, stake: int, payout: int): Result<Payment, Error> {
    var withheld :- Withheld(env, total, stake, payout);
    var paid :- Credit(w, payout - withheld);
    Ok(Payment(payout, withheld, paid))
  }

  // ----------------------------------------------------- row-level changes

  /** Consumes the commitment, debits the stake and inserts its round, still open. */
  function OpenRound(db: Db, w: Wallet, r: Round): Db
    requires r.commitment in db.commitments
  {
    var c := db.commitments[r.commitment];
    db.(wallets := db.wallets[r.user := w],
        commitments := db.commitments[r.commitment := c.(state := Consumed)],
        rounds := db.rounds[c.roundId := r])
  }

  function RaiseStake(db: Db, w: Wallet, id: Id, added: int, autoResolveAt: int): Db
    requires id in db.rounds
  {
    var r := db.rounds[id];
    db.(wallets := db.wallets[r.user := w],
        rounds := db.rounds[id := r.(stake := r.stake + added, version := r.version + 1,
                                     autoResolveAt := autoResolveAt)])
  }

  /** Pays the round, settles it, records its net supply and reveals its seed. */
  function CloseRound(db: Db, w: Wallet, id: Id, payout: int, withheld: int): Db
    requires id in db.rounds && db.rounds[id].commitment in db.commitments
  {
    var r := db.rounds[id];
    var net := payout - withheld - r.stake;
    db.(wallets := db.wallets[r.user := w],
        commitments := db.commitments[r.commitment := db.commitments[r.commitment].(state := Revealed)],
        rounds := db.rounds[id := r.(payout := payout, withheld := withheld, phase := Settled)],
        supply := if net == 0 then db.supply else db.supply[id := net],
        jobs := map k | k in db.jobs ::
          if k.0 == id && db.jobs[k].status == Pending then db.jobs[k].(status := Done) else db.jobs[k])
  }

  // ----------------------------------------------------------- commitments

  ghost predicate IdTaken(db: Db, id: Id, roundId: Id) {
    id in db.commitments || exists c :: c in db.commitments && db.commitments[c].roundId == roundId
  }

  function CursorOf(db: Db, user: User, game: Game): Cursor {
    if (user, game) in db.cursors then db.cursors[(user, game)] else Cursor(0, false)
  }

  /** Keeps a compatible commitment; otherwise invalidates it and issues the next nonce, the last one exhausting the
      cursor. */
  ghost function IssueFrom(db: Db, held: Option<Id>, user: User, game: Game, binding: Binding, id: Id, roundId: Id,
                           draw: nat): Tx<Id>
    requires held.Some? ==> held.value in db.commitments
  {
    if held.Some? && db.commitments[held.value].binding == binding then Ok((db, held.value))
    else
      var cleared :=
        if held.Some? then db.commitments[held.value := db.commitments[held.value].(state := Invalidated)]
        else db.commitments;
      var cursor := CursorOf(db, user, game);
      if cursor.exhausted then Err(NonceExhausted)
      else if IdTaken(db, id, roundId) then Err(Collision)
      else
        var last := cursor.next == MAX_INT64;
        Ok((db.(commitments := cleared[id := Commitment(user, game, cursor.next, roundId, binding, draw, Available)],
                cursors := db.cursors[(user, game) := Cursor(if last then cursor.next else cursor.next + 1,
                                                             last)]), id))
  }

  ghost function NextCommitment(db: Db, user: User, game: Game, binding: Binding, id: Id, roundId: Id,
                                draw: nat): Tx<Id> {
    IssueFrom(db, AvailableCommitment(db, user, game), user, game, binding, id, roundId, draw)
  }

  function PreferenceOf(db: Db, user: User, game: Game, env: Env): Preference {
    if (user, game) in db.prefs then db.prefs[(user, game)] else Preference(env.freshSeed, 1)
  }

  function WithPreference(db: Db, user: User, game: Game, p: Preference): Db {
    db.(prefs := db.prefs[(user, game) := p])
  }

  function Bound(env: Env, p: Preference): Binding { Binding(env.runtime, env.fairRules, p.seed, p.version) }

  function EnsureAccount(db: Db, user: User): Db {
    if user in db.wallets then db else db.(wallets := db.wallets[user := Wallet(0, 0, 0)])
  }

  /** The store after a bootstrap has read the latest round and the client seed. */
  ghost function Viewed(db: Db, user: User, game: Game, env: Env): Db {
    var latest := LatestRound(db, user, game);
    var read := if latest.Some? then AfterRead(db, latest.value, env) else db;
    WithPreference(read, user, game, PreferenceOf(read, user, game, env))
  }

  /** The blocker a bootstrap reports: it looks at the latest round only. */
  ghost function Blocker(db: Db, user: User, game: Game): Option<Id> {
    var latest := LatestRound(db, user, game);
    if latest.Some? && Blocking(db.rounds[latest.value]) then latest else None
  }

  /** Answers the next commitment, or none while the latest round still blocks. */
  ghost function Bootstrap(db: Db, user: User, game: Game, env: Env, id: Id, roundId: Id, draw: nat): Tx<Option<Id>> {
    if user !in db.wallets then Err(WalletNotFound)
    else
      var viewed := Viewed(db, user, game, env);
      if env.entry == Play && Blocker(db, user, game).None? then
        var (issued, c) :- NextCommitment(viewed, user, game, Bound(env, viewed.prefs[(user, game)]), id, roundId,
                                          draw);
        Ok((issued, Some(c)))
      else Ok((viewed, None))
  }

  predicate ValidClientSeed(seed: string) {
    && 1 <= |seed| <= 128
    && forall i :: 0 <= i < |seed| ==> !(seed[i] < 32 as char || 127 as char <= seed[i] <= 159 as char)
  }

  /** A retry of the same seed changes nothing, which keeps the reserved commitment. */
  function Reseeded(p: Preference, seed: string): Preference {
    if p.seed == seed then p else Preference(seed, p.version + 1)
  }

  function SeedFault(p: Preference, user: User, seed: string, env: Env): Option<Error> {
    if !ValidClientSeed(seed) || user == 0 then Some(InvalidInput)
    else if !env.configured then Some(Unavailable)
    else if p.version == MAX_INT64 then Some(Overflow)
    else None
  }

  ghost function SetClientSeed(db: Db, user: User, game: Game, seed: string, env: Env, id: Id, roundId: Id,
                               draw: nat): Tx<Id> {
    var p := PreferenceOf(db, user, game, env);
    var fault := SeedFault(p, user, seed, env);
    if fault.Some? then Err(fault.value)
    else
      var q := Reseeded(p, seed);
      NextCommitment(WithPreference(db, user, game, q), user, game, Bound(env, q), id, roundId, draw)
  }

  // ---------------------------------------------------------------- create

  predicate ValidKey(key: string) {
    16 <= |key| <= 128 && forall i :: 0 <= i < |key| ==> 33 as char <= key[i] <= 126 as char
  }

  datatype Plan = Plan(n: Normalized, before: Wallet, total: int)
  datatype Check = Replay(id: Id) | Fresh(plan: Plan)

  function GuardFault(g: GuardError): Error {
    match g case InsufficientBalance => Insufficient case BalanceOverflow => Overflow case CapExceeded => InvalidInput
  }

  /** Every check a create makes, in order, all before the hidden seed is opened. */
  ghost function Preflight(db: Db, user: User, game: Game, key: string, cid: Id, input: Input,
                           env: Env): Result<Check, Error> {
    var normalized := Normalize(game, input);
    if normalized.Err? || user == 0 || !ValidKey(key) then Err(InvalidInput)
    else
      var n := normalized.value;
      var known := RoundByKey(db, user, game, key);
      if known.Some? then
        if db.rounds[known.value].request != n.input then Err(IdempotencyConflict) else Ok(Replay(known.value))
      else if env.maintenance then Err(Maintenance)
      else if game == Blackjack && Blocked(db, user, game) then Err(ActiveRound)
      else if env.entry == InMaintenance then Err(Maintenance)
      else if env.entry != Play then Err(Unavailable)
      else if game == Scratch && Blocked(db, user, game) then Err(ScratchIncomplete)
      else if !HoldsAvailable(db, cid, user, game) then Err(CommitmentInvalid)
      else if db.commitments[cid].binding != Bound(env, PreferenceOf(db, user, game, env)) then Err(CommitmentInvalid)
      else if user !in db.wallets then Err(WalletNotFound)
      else
        var w := db.wallets[user];
        var cap := if env.economy.Some? then Some(env.economy.value.singleMax) else None;
        match Guard(n, w.balance, w.ledgerSeq, w.version, Spare(game), cap)
        case Some(fault) => Err(GuardFault(fault))
        case None =>
          var total :- ObserveEconomy(db, user, w.balance, n.totalStake, env);
          Ok(Fresh(Plan(n, w, total)))
  }

  function NewRound(c: Commitment, cid: Id, key: string, n: Normalized, autoResolveAt: int, rows: Rows): Round {
    Round(c.user, c.game, cid, c.nonce, key, n.input, n.base, n.totalStake, 0, 0, 0, PlayerTurn, false, false,
          autoResolveAt, 1, rows)
  }

  /** Pays, stores and reveals an outcome. */
  function SettleAs(db: Db, cid: Id, key: string, plan: Plan, env: Env, outcome: Option<Outcome>): Tx<Shown>
    requires cid in db.commitments && (outcome.Some? ==> ThreeDice(outcome.value.typed))
  {
    var c := db.commitments[cid];
    var debited :- Apply(plan.before, 0 - plan.n.totalStake);
    match outcome
    case None => Err(InvalidInput)
    case Some(o) =>
      var p :- Pay(debited, env, plan.total, plan.n.totalStake, plan.n.base * o.payoff.payout);
      var started := OpenRound(db, debited, NewRound(c, cid, key, plan.n, 0, Stored(o)));
      var settled := CloseRound(started, p.paid, c.roundId, p.payout, p.withheld);
      Ok((settled, Shown(c.roundId, settled.rounds[c.roundId], Fast(o))))
  }

  /** The part of a fast create that depends on the seed: draw, cap, pay, record, reveal. */
  function SettleFast(db: Db, cid: Id, key: string, plan: Plan, env: Env, source: Source): Tx<Shown>
    requires cid in db.commitments
  {
    SettleAs(db, cid, key, plan, env, Derived(db.commitments[cid].game, plan.n.input, env.config, source))
  }

  ghost function CreateFast(db: Db, user: User, game: Game, key: string, cid: Id, input: Input, env: Env,
                            source: Source): Tx<Shown> {
    var check :- Preflight(db, user, game, key, cid, input, env);
    match check
    case Replay(id) => ReadRound(db, id, env)
    case Fresh(plan) => CreateFresh(db, user, game, key, cid, plan, env, source)
  }

  /** A create that passed its checks. */
  function CreateFresh(db: Db, user: User, game: Game, key: string, cid: Id, plan: Plan, env: Env,
                       source: Source): Tx<Shown>
    requires cid in db.commitments
  {
    SettleFast(WithPreference(db, user, game, PreferenceOf(db, user, game, env)), cid, key, plan, env, source)
  }

  // ------------------------------------------------------------- blackjack

  /** What the rules engine reports for a deal or a move. */
  datatype Play21 = Play21(additional: int, settled: bool, payout: int, autoResolveAt: int)

  /** The engine's contract: stakes stay within eight wagers and a settlement pays at most twice the stake. */
  predicate EngineResult(initial: nat, stake: int, available: int, p: Play21) {
    && 0 <= p.additional <= available && stake + p.additional <= 8 * initial
    && (if p.settled then 0 <= p.payout <= 2 * (stake + p.additional) else p.payout == 0)
  }

  /** A natural pays five halves of the single unsplit wager. */
  predicate DealResult(initial: int, p: Play21) {
    p.additional == 0 && (if p.settled then 0 <= p.payout <= initial / 2 * 5 else p.payout == 0)
  }

  /** The fair return of a wager under a commitment's rules and seed. */
  function BonusOf(c: Commitment, initial: nat): nat { FairReturn.Bonus(c.binding.fairRules, initial, c.draw) }

  function WithFair(db: Db, id: Id, bonus: nat): Db
    requires id in db.rounds
  {
    db.(rounds := db.rounds[id := db.rounds[id].(fair := bonus)])
  }

  /** What settling an open round pays: bonus, cap and credit. */
  ghost function FinalPay(db: Db, id: Id, gross: int, env: Env): Result<Payment, Error>
    requires id in db.rounds && db.rounds[id].commitment in db.commitments
    requires db.rounds[id].user in db.wallets
  {
    var r := db.rounds[id];
    var w := db.wallets[r.user];
    var payout := gross + BonusOf(db.commitments[r.commitment], r.initial);
    if payout > MAX_INT64 then Err(Overflow)
    else
      var total :- if env.economy.None? then Ok(0) else TotalAssets(db, r.user, w.balance, env);
      Pay(w, env, total, r.stake, payout)
  }

  /** Settles an open round that has just reached its end: pays it, records its supply and reveals its seed. */
  ghost function Finish(db: Db, id: Id, gross: int, env: Env): Tx<Id>
    requires id in db.rounds && db.rounds[id].commitment in db.commitments
    requires db.rounds[id].user in db.wallets
  {
    var bonus := BonusOf(db.commitments[db.rounds[id].commitment], db.rounds[id].initial);
    var p :- FinalPay(db, id, gross, env);
    Ok((CloseRound(WithFair(db, id, bonus), p.paid, id, p.payout, p.withheld), id))
  }

  function WithJobs(db: Db, id: Id, env: Env, due: int): Db {
    db.(jobs := db.jobs[(id, AutoResolve) := Job(env.jobIds.0, Pending, due)]
                       [(id, Recovery) := Job(env.jobIds.1, Pending, env.now)])
  }

  /** The opened hand after the deal: settled at once, or waiting for its player. */
  ghost function Dealt(db: Db, id: Id, env: Env, deal: Play21): Tx<Id>
    requires id in db.rounds && db.rounds[id].commitment in db.commitments
    requires deal.settled ==> db.rounds[id].user in db.wallets
  {
    if deal.settled then Finish(db, id, deal.payout, env)
    else Ok((WithJobs(db, id, env, deal.autoResolveAt), id))
  }

  /** The part of a blackjack create that depends on the shoe: debit, open, and settle a natural at once. */
  ghost function Deal(db: Db, cid: Id, key: string, plan: Plan, env: Env, deal: Play21): (r: Tx<Id>)
    requires cid in db.commitments
    ensures r.Ok? ==> r.value.1 in r.value.0.rounds
  {
    var c := db.commitments[cid];
    var debited :- Apply(plan.before, 0 - plan.n.totalStake);
    var started := OpenRound(db, debited, NewRound(c, cid, key, plan.n, deal.autoResolveAt, NoRows));
    Dealt(started, c.roundId, env, deal)
  }

  ghost function CreateBlackjack(db: Db, user: User, key: string, cid: Id, input: Input, env: Env,
                                 deal: Play21): Tx<Shown> {
    var check :- Preflight(db, user, Blackjack, key, cid, input, env);
    match check
    case Replay(id) => ReadRound(db, id, env)
    case Fresh(plan) => DealFresh(db, user, key, cid, plan, env, deal)
  }

  /** A deal that passed its checks. */
  ghost function DealFresh(db: Db, user: User, key: string, cid: Id, plan: Plan, env: Env, deal: Play21): Tx<Shown>
    requires cid in db.commitments
  {
    var db1 := WithPreference(db, user, Blackjack, PreferenceOf(db, user, Blackjack, env));
    var (after, id) :- Deal(db1, cid, key, plan, env, deal);
    Ok((after, Shown(id, after.rounds[id], Hand)))
  }

  /** Marks an open round for review and freezes its jobs. */
  function MarkReview(db: Db, id: Id): Db
    requires id in db.rounds
  {
    var r := db.rounds[id];
    if r.phase != PlayerTurn || r.review then db
    else db.(rounds := db.rounds[id := r.(review := true)],
             jobs := map k | k in db.jobs ::
               if k.0 == id && db.jobs[k].status == Pending then db.jobs[k].(status := NeedsReview) else db.jobs[k])
  }

  /** Reading a blackjack round recovers it first; a failed recovery leaves a review mark. */
  function AfterRead(db: Db, id: Id, env: Env): Db {
    if id in db.rounds && db.rounds[id].game == Blackjack && !env.recovered then MarkReview(db, id) else db
  }

  /** Reads a round for its player. A hand that is under review, or whose recovery fails, is not shown. */
  function ReadRound(db: Db, id: Id, env: Env): Tx<Shown>
    requires id in db.rounds
  {
    var after := AfterRead(db, id, env);
    var r := after.rounds[id];
    if r.game != Blackjack then
      match ReadBack(r.game, r.rows)
      case None => Err(Unavailable)
      case Some(o) => Ok((after, Shown(id, r, Fast(o))))
    else if r.review || !env.recovered then Ok((after, Shown(id, r.(review := true), NoHand)))
    else Ok((after, Shown(id, r, Hand)))
  }

  predicate PlayerMove(a: ActionInput) { a.kind in {Hit, Stand, Double, Split} && a.expectedVersion >= 1 }

  predicate TakesStake(kind: ActionKind) { kind == Double || kind == Split }

  datatype MoveCheck = Answered(response: Option<Round>) | UnderReview | Ready

  /** Every check an action makes before the rules engine sees the hidden shoe; `hand` is the stake of the hand it
      names, if there is one. */
  ghost function MovePreflight(db: Db, user: User, id: Id, action: ActionInput, env: Env,
                               hand: Option<int>): Result<MoveCheck, Error> {
    if user == 0 || !PlayerMove(action) then Err(InvalidInput)
    else if action.id in db.actions && db.actions[action.id].user == user then
      var row := db.actions[action.id];
      if row.round != id || row.input != action then Err(IdempotencyConflict) else Ok(Answered(row.response))
    else if id !in db.rounds || db.rounds[id].user != user then Err(NotFound)
    else
      var r := db.rounds[id];
      if r.game != Blackjack then Err(InvalidInput)
      else if r.commitment !in db.commitments then Err(NotFound)
      else if r.review || !env.recovered then Ok(UnderReview)
      else if user !in db.wallets then Err(WalletNotFound)
      else
        var w := db.wallets[user];
        if w.balance > MAX_INT64 - r.initial * 17 || w.ledgerSeq > MAX_INT64 - 2 || w.version > MAX_INT64 - 2
          then Err(Overflow)
        else
          var _ :- ObserveEconomy(db, user, w.balance, r.stake, env);
          if env.economy.Some? && TakesStake(action.kind) && hand.Some?
             && hand.value > env.economy.value.singleMax - r.stake
          then Err(InvalidInput) else Ok(Ready)
  }

  function Debited(w: Wallet, added: int): Result<Wallet, Error> { if added > 0 then Apply(w, -added) else Ok(w) }

  /** The engine's answer in effect: the hand is settled or its automatic resolution rescheduled. */
  ghost function Moved(db: Db, id: Id, move: Play21, env: Env): Tx<Id>
    requires id in db.rounds && db.rounds[id].commitment in db.commitments && db.rounds[id].user in db.wallets
  {
    if move.settled then Finish(db, id, move.payout, env) else Ok((Rescheduled(db, id, move.autoResolveAt), id))
  }

  /** Applies an accepted move: debit, raise, settle or reschedule, and keep the answer for retries. */
  ghost function Move(db: Db, user: User, id: Id, action: ActionInput, env: Env, move: Play21): Tx<Option<Round>>
    requires id in db.rounds && db.rounds[id].commitment in db.commitments && db.rounds[id].user == user
    requires user in db.wallets
  {
    var debited :- Debited(db.wallets[user], move.additional);
    var (done, _) :- Moved(RaiseStake(db, debited, id, move.additional, move.autoResolveAt), id, move, env);
    var shown := Some(done.rounds[id]);
    Ok((done.(actions := done.actions[action.id := ActionRow(user, id, action, shown)]), shown))
  }

  /** The round as shown after the action, or none when the round is under review. */
  ghost function BlackjackAction(db: Db, user: User, id: Id, action: ActionInput, env: Env, hand: Option<int>,
                                 engine: Option<Play21>): Tx<Option<Round>> {
    var check :- MovePreflight(db, user, id, action, env, hand);
    match check
    case Answered(response) => Ok((db, response))
    case UnderReview => Ok((AfterRead(db, id, env), None))
    case Ready =>
      if engine.None? || db.rounds[id].phase == Settled then Err(EngineRefused)
      else if action.id in db.actions then Err(Collision)
      else Move(db, user, id, action, env, engine.value)
  }

  function Rescheduled(db: Db, id: Id, due: int): Db {
    if (id, AutoResolve) in db.jobs && db.jobs[(id, AutoResolve)].status == Pending
    then db.(jobs := db.jobs[(id, AutoResolve) := db.jobs[(id, AutoResolve)].(runAt := due)]) else db
  }

  function WithSystemActions(actions: map<Id, ActionRow>, user: User, id: Id, ids: seq<Id>, version: nat,
                             shown: Round): map<Id, ActionRow>
    decreases |ids|
  {
    if ids == [] then actions
    else WithSystemActions(actions[ids[0] := ActionRow(user, id, ActionInput(ids[0], SystemAutoStand, 0, version),
                                                       Some(shown))],
                           user, id, ids[1..], version + 1, shown)
  }

  predicate FreshActions(db: Db, ids: seq<Id>) {
    && (forall i :: 0 <= i < |ids| ==> ids[i] !in db.actions)
    && (forall i, j :: 0 <= i < j < |ids| ==> ids[i] != ids[j])
  }

  /** The round's state after the engine's automatic stands, before it is settled. */
  function Stood(db: Db, id: Id, stands: nat): Db
    requires id in db.rounds
  {
    db.(rounds := db.rounds[id := db.rounds[id].(version := db.rounds[id].version + stands)])
  }

  /** Stands every hand, settles the round and records the system's actions with the final answer. */
  ghost function Resolve(db: Db, id: Id, env: Env, payout: int, ids: seq<Id>): Tx<()>
    requires id in db.rounds && db.rounds[id].commitment in db.commitments && db.rounds[id].user in db.wallets
  {
    var r := db.rounds[id];
    var (done, _) :- Finish(Stood(db, id, |ids|), id, payout, env);
    Ok((done.(actions := WithSystemActions(done.actions, r.user, id, ids, r.version, done.rounds[id])), ()))
  }

  datatype JobCheck = Skip | Reviewed | Close | Postpone | Settle

  /** What a picked job comes to, before the engine runs. */
  function JobPreflight(db: Db, id: Id, kind: JobKind, env: Env): Result<JobCheck, Error> {
    if id !in db.rounds || db.rounds[id].game != Blackjack || (id, kind) !in db.jobs then Ok(Skip)
    else
      var r := db.rounds[id];
      var job := db.jobs[(id, kind)];
      if job.status != Pending || env.now < job.runAt then Ok(Skip)
      else if r.commitment !in db.commitments then Err(NotFound)
      else if r.review || !env.recovered then Ok(Reviewed)
      else if kind == Recovery || r.phase == Settled then Ok(Close)
      else if env.now < r.autoResolveAt then Ok(Postpone)
      else if r.user !in db.wallets then Err(WalletNotFound)
      else
        var w := db.wallets[r.user];
        if w.balance > MAX_INT64 - r.initial * 17 || w.ledgerSeq == MAX_INT64 || w.version == MAX_INT64
          then Err(Overflow)
        else Ok(Settle)
  }

  /** One due job; `payout` is what the engine's automatic stands settle to. */
  ghost function ProcessJob(db: Db, id: Id, kind: JobKind, env: Env, payout: int, ids: seq<Id>): Tx<()> {
    var check :- JobPreflight(db, id, kind, env);
    match check
    case Skip => Ok((db, ()))
    case Reviewed => Ok((AfterRead(db, id, env), ()))
    case Close => Ok((db.(jobs := db.jobs[(id, kind) := db.jobs[(id, kind)].(status := Done)]), ()))
    case Postpone =>
      Ok((db.(jobs := db.jobs[(id, kind) := db.jobs[(id, kind)].(runAt := db.rounds[id].autoResolveAt)]), ()))
    case Settle => if !FreshActions(db, ids) then Err(Collision) else Resolve(db, id, env, payout, ids)
  }

  /** A failed job keeps its round as it was and is tried again later. */
  function RetryJob(db: Db, id: Id, kind: JobKind, now: int): Db {
    if (id, kind) in db.jobs && db.jobs[(id, kind)].status == Pending
    then db.(jobs := db.jobs[(id, kind) := db.jobs[(id, kind)].(runAt := now + 30)]) else db
  }

  // ------------------------------------------------------ reveal and reads

  function RevealComplete(db: Db, user: User, id: Id, actionId: Id): Tx<Round> {
    if id !in db.rounds || db.rounds[id].user != user then Err(NotFound)
    else
      var r := db.rounds[id];
      if r.game != Scratch then Err(InvalidInput)
      else if actionId in db.actions then
        if db.actions[actionId].round != id then Err(IdempotencyConflict) else Ok((db, r))
      else if r.presented then Ok((db, r))
      else
        var shown := r.(presented := true);
        var row := ActionRow(user, id, ActionInput(actionId, ScratchReveal, 0, 0), None);
        Ok((db.(rounds := db.rounds[id := shown], actions := db.actions[actionId := row]), shown))
  }

  /** The original answer of exactly this action, never a fresh view and never an effect. */
  function FindAction(db: Db, user: User, id: Id, action: ActionInput): Result<Option<Round>, Error> {
    if action.id !in db.actions || db.actions[action.id].user != user then Ok(None)
    else
      var row := db.actions[action.id];
      if row.round != id || row.input != action then Err(IdempotencyConflict) else Ok(row.response)
  }

  /** The round of a key as its player is shown it, if there is one. */
  ghost function FindByKey(db: Db, user: User, game: Game, key: string, env: Env): Tx<Option<Shown>> {
    if !ValidKey(key) then Err(InvalidInput)
    else
      match RoundByKey(db, user, game, key)
      case None => Ok((db, None))
      case Some(id) =>
        var (after, shown) :- ReadRound(db, id, env);
        Ok((after, Some(shown)))
  }

  /** Verification of a fast round: what is read back against what the revealed seed and the round's configuration give
      again. */
  function VerifyRound(db: Db, user: User, id: Id, config: Config, source: Source): Result<bool, Error> {
    if id !in db.rounds || db.rounds[id].user != user then Err(NotFound)
    else
      var r := db.rounds[id];
      match ReadBack(r.game, r.rows)
      case None => Err(Unavailable)
      case Some(read) =>
        if r.commitment !in db.commitments then Err(NotFound)
        else if r.phase != Settled then Ok(false)
        else if db.commitments[r.commitment].state != Revealed then Err(NotFound)
        else
          match (Derived(r.game, r.request, config, source), Normalize(r.game, r.request))
          case (Some(again), Ok(n)) =>
            Ok(read == again && r.payout == n.base * again.payoff.payout && r.stake == n.totalStake
               && r.nonce == db.commitments[r.commitment].nonce)
          case (_, _) => Err(InvalidInput)
  }

  /** Chips moved by the rest of the platform. */
  function Transfer(db: Db, user: User, delta: int): Tx<()> {
    if user !in db.wallets then Err(WalletNotFound)
    else
      var w :- Apply(db.wallets[user], delta);
      Ok((db.(wallets := db.wallets[user := w]), ()))
  }
}
