/** The Discord dice quote: play and lookup on top of the game service, internal/botgames/service.go, quote.go and
    projection.go. */
module BotDice {
  import opened Numbers
  import opened Wrappers
  import opened Decimal
  import opened Wagers
  import opened FastGames
  import opened Outcomes
  import opened GameStore
  import opened GameInvariant
  import opened GameUpdates
  import opened GameTransactions
  import opened GameHistory
  import opened GameReplays
  import opened GameEffects
  import opened GameRules
  import opened GameService
  import FairReturn

  /** The signed terms; a quote reaches this model only with its authentic signature. */
  datatype Quote = Quote(subject: string, binding: string, requestId: string, wager: string, choice: string, cid: Id,
                         issuedAt: int)

  /** Who is asking: the subject named, the account it resolves to and that account's current binding. */
  datatype Caller = Caller(subject: string, user: User, binding: string)

  datatype BotError = InvalidRequest | Unauthorized | BindingChanged | Conflict | NoRound | QuoteExpired
                    | UpstreamUnavailable | Game(error: Error)

  predicate Canonical(s: string) { 1 <= |s| <= 20 && AllDigits(s) && s[0] != '0' }

  predicate Verified(q: Quote, now: int) {
    && Canonical(q.requestId) && Value(q.requestId) <= MAX_UINT64
    && Canonical(q.wager) && Value(q.wager) <= MAX_INT64 / (2 * UNITS_PER_CHIP)
    && (q.choice == "BIG" || q.choice == "SMALL")
    && 0 < q.issuedAt <= MAX_INT64 - 120 && q.issuedAt <= now
  }

  function ExpiresAt(q: Quote): int { q.issuedAt + 120 }

  function Key(q: Quote): string { "discord-dice-v1:" + q.requestId }

  function Terms(q: Quote): Input { Input("DICE", q.wager, q.choice, "", "", "", "") }

  function Refusal(c: Caller, q: Quote, now: int): Option<BotError> {
    if !Verified(q, now) then Some(InvalidRequest)
    else if q.subject != c.subject then Some(Unauthorized)
    else if c.user == 0 then Some(Game(Error.Unavailable))
    else if q.binding != c.binding then Some(BindingChanged)
    else None
  }

  /** The message of a settled round. */
  datatype Message = Message(id: Id, wager: string, choice: string, dice: seq<nat>, total: nat,
                             result: FairReturn.Class, stake: int, gross: int, withheld: int, credited: int, net: int)

  function WagerUnits(wager: string): Option<int> {
    if !Canonical(wager) || Value(wager) > MAX_INT64 / (2 * UNITS_PER_CHIP) then None
    else Some(Value(wager) * UNITS_PER_CHIP)
  }

  predicate FacesOk(dice: seq<nat>) { forall i :: 0 <= i < |dice| ==> 1 <= dice[i] <= 6 }

  function SumOfFaces(dice: seq<nat>): nat {
    if dice == [] then 0 else SumOfFaces(dice[..|dice| - 1]) + dice[|dice| - 1]
  }

  predicate DiceRound(s: Shown) {
    && s.round.game == Dice && s.round.phase == Settled && s.view.Fast? && s.view.outcome.typed.DiceResult?
    && s.round.request.kind == "DICE" && (s.round.request.choice == "BIG" || s.round.request.choice == "SMALL")
    && WagerUnits(s.round.request.wager) == Some(s.round.stake)
    && s.round.payout >= 0 && 0 <= s.round.withheld <= s.round.payout
  }

  /** Projects a shown round; what it says of win or loss comes from the stored amounts. */
  function Project(s: Shown): Result<Message, BotError> {
    if !DiceRound(s) then Err(UpstreamUnavailable)
    else
      var r, t := s.round, s.view.outcome.typed;
      if !FacesOk(t.dice) || SumOfFaces(t.dice) != t.total then Err(UpstreamUnavailable)
      else Ok(Message(s.id, r.request.wager, r.request.choice, t.dice, t.total, FairReturn.ClassOf(r.payout - r.stake),
                      r.stake, r.payout, r.withheld, r.payout - r.withheld, r.payout - r.withheld - r.stake))
  }

  function Matching(s: Shown, q: Quote): Result<Message, BotError> {
    if s.round.request == Terms(q) then Project(s) else Err(Conflict)
  }

  /** Play or lookup. Other transactions may commit between the search for the key and the create. */
  ghost function BotResult(db: Db, between: seq<Op>, c: Caller, q: Quote, now: int, create: bool, env: Env,
                           source: Source): (Db, Result<Message, BotError>) {
    var refusal := Refusal(c, q, now);
    if refusal.Some? then (db, Err(refusal.value))
    else
      match FindByKey(db, c.user, Dice, Key(q), env)
      case Err(e) => (db, Err(Game(e)))
      case Ok((after, Some(shown))) => (after, Matching(shown, q))
      case Ok((after, None)) =>
        if !create then (after, Err(NoRound))
        else if now >= ExpiresAt(q) then (after, Err(QuoteExpired))
        else BotCreate(Run(after, between), c, q, env, source)
  }

  ghost function BotCreate(db: Db, c: Caller, q: Quote, env: Env, source: Source): (Db, Result<Message, BotError>) {
    match CreateFast(db, c.user, Dice, Key(q), q.cid, Terms(q), env, source)
    case Err(e) => (db, Err(Game(e)))
    case Ok((after, shown)) => (after, Matching(shown, q))
  }

  // ------------------------------------------------------------ properties

  lemma {:induction false} CanonicalIsDigits(s: string)
    requires Canonical(s)
    ensures Digits(Value(s)) == s
  {
    CanonicalDigits(s);
  }

  lemma {:induction false} CanonicalDigits(s: string)
    requires s != "" && AllDigits(s) && s[0] != '0'
    ensures Digits(Value(s)) == s && Value(s) > 0
    decreases |s|
  {
    var n := |s| - 1;
    var head := s[..n];
    assert s == head + [s[n]];
    ValueSnoc(head, s[n]);
    if n > 0 {
      CanonicalDigits(head);
    }
  }

  /** A verified quote stores exactly its own terms. */
  lemma TermsNormalized(q: Quote, now: int)
    requires Verified(q, now) && Normalize(Dice, Terms(q)).Ok?
    ensures Normalize(Dice, Terms(q)).value.input == Terms(q)
  {
    CanonicalIsDigits(q.wager);
  }

  lemma KeyIsValid(q: Quote, now: int)
    requires Verified(q, now)
    ensures ValidKey(Key(q))
  {
    var prefix := "discord-dice-v1:";
    assert forall i :: 0 <= i < 16 ==> 33 as char <= prefix[i] <= 126 as char;
    forall i | 0 <= i < |Key(q)| ensures 33 as char <= Key(q)[i] <= 126 as char {
      if i < 16 {
        assert Key(q)[i] == prefix[i];
      } else {
        assert Key(q)[i] == q.requestId[i - 16] && IsDigit(q.requestId[i - 16]);
      }
    }
  }

  /** Quotes share a key exactly when they share the request: a quote signed again for the same request finds the same
      round, one for another request never does. */
  lemma KeyOfRequest(q: Quote, other: Quote)
    ensures Key(q) == Key(other) <==> q.requestId == other.requestId
  {
    assert Key(q)[16..] == q.requestId && Key(other)[16..] == other.requestId;
  }

  /** The message of a stored row. */
  function RowMessage(id: Id, r: Round): Result<Message, BotError>
    requires Readable(r.game, r.rows) && r.game != Blackjack
  {
    Project(Shown(id, r, Fast(ReadBack(r.game, r.rows).value)))
  }

  /** The round of this quote, and the message it gives whenever it is read. */
  ghost predicate Tells(db: Db, id: Id, c: Caller, q: Quote, m: Result<Message, BotError>) {
    && HasKey(db, id, c.user, Dice, Key(q)) && db.rounds[id].request == Terms(q)
    && Readable(Dice, db.rounds[id].rows) && m == RowMessage(id, db.rounds[id])
  }

  lemma FindReads(db: Db, id: Id, c: Caller, q: Quote, now: int, env: Env)
    requires RoundsOk(db) && HasKey(db, id, c.user, Dice, Key(q)) && Refusal(c, q, now).None?
    ensures var r := db.rounds[id];
            && Readable(Dice, r.rows)
            && FindByKey(db, c.user, Dice, Key(q), env)
               == Ok((db, Some(Shown(id, r, Fast(ReadBack(Dice, r.rows).value)))))
  {
    KeyIsValid(q, now);
    KeyFound(db, id, c.user, Dice, Key(q));
    FastRead(db, id, env);
  }

  /** A stored key decides every later play and lookup, expired or not: the message of its round for the same terms, a
      conflict otherwise. */
  lemma StoredKeyDecides(db: Db, id: Id, between: seq<Op>, c: Caller, q: Quote, now: int, create: bool, env: Env,
                         source: Source)
    requires RoundsOk(db) && HasKey(db, id, c.user, Dice, Key(q)) && Refusal(c, q, now).None?
    ensures Readable(Dice, db.rounds[id].rows)
    ensures BotResult(db, between, c, q, now, create, env, source)
         == (db, if db.rounds[id].request == Terms(q) then RowMessage(id, db.rounds[id]) else Err(Conflict))
  {
    FindReads(db, id, c, q, now, env);
  }

  /** The message does not read the payoff, so a pushed triple gives the same one when it is read back. */
  lemma FreshTells(db: Db, c: Caller, q: Quote, now: int, env: Env, source: Source)
    requires Inv(db) && ValidConfig(Dice, env.config) && Refusal(c, q, now).None?
    requires CreateFast(db, c.user, Dice, Key(q), q.cid, Terms(q), env, source).Ok?
    requires Preflight(db, c.user, Dice, Key(q), q.cid, Terms(q), env).value.Fresh?
    ensures var (after, shown) := CreateFast(db, c.user, Dice, Key(q), q.cid, Terms(q), env, source).value;
            Tells(after, shown.id, c, q, Matching(shown, q))
  {
    PreflightChecks(db, c.user, Dice, Key(q), q.cid, Terms(q), env);
    TermsNormalized(q, now);
    FastPaysOutcome(db, c.user, Dice, Key(q), q.cid, Terms(q), env, source);
    var (after, shown) := CreateFast(db, c.user, Dice, Key(q), q.cid, Terms(q), env, source).value;
    OutcomeTells(after, shown, c, q, env.config, source);
  }

  lemma OutcomeTells(after: Db, shown: Shown, c: Caller, q: Quote, config: Config, source: Source)
    requires HasKey(after, shown.id, c.user, Dice, Key(q)) && Derived(Dice, Terms(q), config, source).Some?
    requires var o, r := Derived(Dice, Terms(q), config, source).value, after.rounds[shown.id];
             shown == Shown(shown.id, r, Fast(o)) && r.request == Terms(q) && r.rows == Stored(o)
    ensures Tells(after, shown.id, c, q, Matching(shown, q))
  {
    var o, r := Derived(Dice, Terms(q), config, source).value, after.rounds[shown.id];
    ReadBackExactly(Dice, Terms(q), config, source);
    MessageOfOutcome(shown.id, r, r, o, AsRead(Dice, config, source, o));
  }

  lemma CreateTells(db: Db, c: Caller, q: Quote, now: int, env: Env, source: Source)
    requires Inv(db) && ValidConfig(Dice, env.config) && Refusal(c, q, now).None?
    requires CreateFast(db, c.user, Dice, Key(q), q.cid, Terms(q), env, source).Ok?
    ensures var (after, shown) := CreateFast(db, c.user, Dice, Key(q), q.cid, Terms(q), env, source).value;
            Tells(after, shown.id, c, q, Matching(shown, q))
  {
    CreateForm(db, c.user, Dice, Key(q), q.cid, Terms(q), env, source);
    PreflightChecks(db, c.user, Dice, Key(q), q.cid, Terms(q), env);
    var check := Preflight(db, c.user, Dice, Key(q), q.cid, Terms(q), env).value;
    if check.Fresh? {
      FreshTells(db, c, q, now, env, source);
    } else {
      TermsNormalized(q, now);
      FastRead(db, check.id, env);
    }
  }

  /** What a successful answer leaves in the store. */
  lemma AnswerTells(db: Db, between: seq<Op>, c: Caller, q: Quote, now: int, create: bool, env: Env, source: Source)
    returns (id: Id)
    requires Inv(db) && Runs(db, between) && ValidConfig(Dice, env.config)
    requires BotResult(db, between, c, q, now, create, env, source).1.Ok?
    ensures var (after, m) := BotResult(db, between, c, q, now, create, env, source);
            Inv(after) && Tells(after, id, c, q, m)
  {
    var found := RoundByKey(db, c.user, Dice, Key(q));
    AnsweredUnrefused(db, between, c, q, now, create, env, source, now);
    if found.Some? {
      id := found.value;
      StoredKeyDecides(db, id, between, c, q, now, create, env, source);
    } else {
      UnfoundCreates(db, between, c, q, now, create, env, source);
      RunSound(db, between);
      id := CreatedTells(Run(db, between), c, q, now, env, source);
    }
  }

  lemma UnfoundCreates(db: Db, between: seq<Op>, c: Caller, q: Quote, now: int, create: bool, env: Env, source: Source)
    requires RoundByKey(db, c.user, Dice, Key(q)).None? && BotResult(db, between, c, q, now, create, env, source).1.Ok?
    ensures BotResult(db, between, c, q, now, create, env, source) == BotCreate(Run(db, between), c, q, env, source)
  {
  }

  lemma CreatedTells(db: Db, c: Caller, q: Quote, now: int, env: Env, source: Source) returns (id: Id)
    requires Inv(db) && ValidConfig(Dice, env.config) && Refusal(c, q, now).None?
    requires BotCreate(db, c, q, env, source).1.Ok?
    ensures var (after, m) := BotCreate(db, c, q, env, source); Inv(after) && Tells(after, id, c, q, m)
  {
    CreateFastSound(db, c.user, Dice, Key(q), q.cid, Terms(q), env, source);
    CreateTells(db, c, q, now, env, source);
    id := CreateFast(db, c.user, Dice, Key(q), q.cid, Terms(q), env, source).value.1.id;
  }

  /** Once a quote has been answered, every later play or lookup of it, whatever ran in between, answers the very same
      message without effect. */
  lemma AnsweredForEver(db: Db, between: seq<Op>, c: Caller, q: Quote, now: int, create: bool, env: Env, source: Source,
                        ops: seq<Op>,
                        between': seq<Op>, now': int, create': bool, env': Env, source': Source)
    requires Inv(db) && Runs(db, between) && ValidConfig(Dice, env.config)
    requires BotResult(db, between, c, q, now, create, env, source).1.Ok?
    requires Runs(BotResult(db, between, c, q, now, create, env, source).0, ops) && now <= now'
    ensures var (after, m) := BotResult(db, between, c, q, now, create, env, source);
            BotResult(Run(after, ops), between', c, q, now', create', env', source') == (Run(after, ops), m)
  {
    var (after, m) := BotResult(db, between, c, q, now, create, env, source);
    var id := AnswerTells(db, between, c, q, now, create, env, source);
    AnsweredUnrefused(db, between, c, q, now, create, env, source, now');
    RunSound(after, ops);
    KeptDecides(after, Run(after, ops), id, m, between', c, q, now', create', env', source');
  }

  /** A caller once answered is not refused later. */
  lemma AnsweredUnrefused(db: Db, between: seq<Op>, c: Caller, q: Quote, now: int, create: bool, env: Env,
                          source: Source, now': int)
    requires BotResult(db, between, c, q, now, create, env, source).1.Ok? && now <= now'
    ensures Refusal(c, q, now').None?
  {
  }

  lemma KeptDecides(after: Db, later: Db, id: Id, m: Result<Message, BotError>, between: seq<Op>, c: Caller, q: Quote,
                    now: int, create: bool, env: Env, source: Source)
    requires Inv(later) && Extends(after, later) && Tells(after, id, c, q, m) && m.Ok? && Refusal(c, q, now).None?
    ensures BotResult(later, between, c, q, now, create, env, source) == (later, m)
  {
    SameMessage(id, after.rounds[id], later.rounds[id]);
    StoredKeyDecides(later, id, between, c, q, now, create, env, source);
  }

  lemma SameMessage(id: Id, r: Round, r': Round)
    requires r.game == Dice && Readable(Dice, r.rows) && RowMessage(id, r).Ok? && Grows(r, r')
    ensures RowMessage(id, r') == RowMessage(id, r)
  {
    SettledMessage(id, r, ReadBack(Dice, r.rows).value);
    MessageOfOutcome(id, r, r', ReadBack(Dice, r.rows).value, ReadBack(Dice, r.rows).value);
  }

  lemma SettledMessage(id: Id, r: Round, o: Outcome)
    requires Project(Shown(id, r, Fast(o))).Ok?
    ensures r.phase == Settled
  {
  }

  /** A message reads neither the payoff of the outcome nor the presentation mark. */
  lemma MessageOfOutcome(id: Id, r: Round, r': Round, o: Outcome, o': Outcome)
    requires r'.(presented := r.presented) == r && o'.typed == o.typed
    ensures Project(Shown(id, r', Fast(o'))) == Project(Shown(id, r, Fast(o)))
  {
  }

  /** Two overlapping plays of one quote: the later create finds the earlier round, tells its message and adds
      nothing. */
  lemma OverlappingPlays(db: Db, between: seq<Op>, c: Caller, q: Quote, now: int, env: Env, source: Source, id: Id)
    requires Inv(db) && Runs(db, between) && Refusal(c, q, now).None? && now < ExpiresAt(q)
    requires RoundByKey(db, c.user, Dice, Key(q)).None? && HasKey(Run(db, between), id, c.user, Dice, Key(q))
    requires Run(db, between).rounds[id].request == Terms(q) && Normalize(Dice, Terms(q)).Ok?
    ensures Readable(Dice, Run(db, between).rounds[id].rows)
    ensures BotResult(db, between, c, q, now, true, env, source)
         == (Run(db, between), RowMessage(id, Run(db, between).rounds[id]))
  {
    RunSound(db, between);
    KeyIsValid(q, now);
    CreateFinds(Run(db, between), c, q, now, env, source, id);
  }

  /** A create over a stored quote answers its round. */
  lemma CreateFinds(db: Db, c: Caller, q: Quote, now: int, env: Env, source: Source, id: Id)
    requires RoundsOk(db) && Refusal(c, q, now).None? && HasKey(db, id, c.user, Dice, Key(q))
    requires db.rounds[id].request == Terms(q) && Normalize(Dice, Terms(q)).Ok?
    ensures Readable(Dice, db.rounds[id].rows)
    ensures BotCreate(db, c, q, env, source) == (db, RowMessage(id, db.rounds[id]))
  {
    TermsNormalized(q, now);
    KeyIsValid(q, now);
    FastAnswered(db, id, c.user, Dice, Key(q), q.cid, Terms(q), env, source);
    FastRead(db, id, env);
  }

  /** A play whose create is accepted always gets its message. */
  lemma PlayTells(db: Db, c: Caller, q: Quote, now: int, env: Env, source: Source)
    requires Inv(db) && ValidConfig(Dice, env.config) && Refusal(c, q, now).None?
    requires CreateFast(db, c.user, Dice, Key(q), q.cid, Terms(q), env, source).Ok?
    requires Preflight(db, c.user, Dice, Key(q), q.cid, Terms(q), env).value.Fresh?
    ensures BotCreate(db, c, q, env, source).1.Ok?
  {
    PreflightChecks(db, c.user, Dice, Key(q), q.cid, Terms(q), env);
    TermsNormalized(q, now);
    FastPaysOutcome(db, c.user, Dice, Key(q), q.cid, Terms(q), env, source);
    CreateFastSound(db, c.user, Dice, Key(q), q.cid, Terms(q), env, source);
    var (after, shown) := CreateFast(db, c.user, Dice, Key(q), q.cid, Terms(q), env, source).value;
    FreshProjects(shown, after, q, now, env.config, source);
  }

  /** A numeral of at most twenty digits without a leading zero. */
  predicate Plain(s: string) { s != "" && |s| <= 20 && AllDigits(s) && s[0] != '0' }

  /** The quote names its terms in full, is not from the future, and is presented by the person it was made for, whose
      account is linked as it was then. */
  predicate QuoteHolds(c: Caller, q: Quote, now: int) {
    && Plain(q.requestId) && Value(q.requestId) <= 0xFFFF_FFFF_FFFF_FFFF
    && Plain(q.wager) && Value(q.wager) * 1_000_000 <= 0x7FFF_FFFF_FFFF_FFFF && q.choice in {"BIG", "SMALL"}
    && 0 < q.issuedAt <= now && q.issuedAt + 120 <= 0x7FFF_FFFF_FFFF_FFFF
    && c.subject == q.subject && c.binding == q.binding && c.user != 0
  }

  lemma RefusedExactly(c: Caller, q: Quote, now: int)
    ensures Refusal(c, q, now).None? <==> QuoteHolds(c, q, now)
  {
    if AllDigits(q.wager) { MulBound(Value(q.wager), 2 * UNITS_PER_CHIP, MAX_INT64); }
  }

  /** While no round bears the quote's key, it is answered if and only if it holds, is played rather than looked up
      within its 120 seconds, and its player may start the round quoted at the time the create commits. */
  lemma PlayedExactly(db: Db, between: seq<Op>, c: Caller, q: Quote, now: int, create: bool, env: Env, source: Source)
    requires Inv(db) && Runs(db, between) && ValidConfig(Dice, env.config) && EconomyOk(env)
    requires RoundByKey(db, c.user, Dice, Key(q)).None? && RoundByKey(Run(db, between), c.user, Dice, Key(q)).None?
    ensures var (after, r) := BotResult(db, between, c, q, now, create, env, source);
            && (r.Ok? <==>
                  && QuoteHolds(c, q, now) && create && now < q.issuedAt + 120
                  && MayStart(Run(db, between), c.user, Dice, Key(q), q.cid, Terms(q), env, 2))
            && (QuoteHolds(c, q, now) && !create ==> (after, r) == (db, Err(NoRound)))
            && (QuoteHolds(c, q, now) && create && now >= q.issuedAt + 120 ==> (after, r) == (db, Err(QuoteExpired)))
  {
    RunSound(db, between);
    RefusedExactly(c, q, now);
    if Refusal(c, q, now).None? {
      KeyIsValid(q, now);
      UnfoundAnswers(db, between, c, q, now, create, env, source);
      CreatedExactly(Run(db, between), c, q, now, env, source);
    }
  }

  lemma UnfoundAnswers(db: Db, between: seq<Op>, c: Caller, q: Quote, now: int, create: bool, env: Env, source: Source)
    requires Refusal(c, q, now).None? && ValidKey(Key(q)) && RoundByKey(db, c.user, Dice, Key(q)).None?
    ensures BotResult(db, between, c, q, now, create, env, source)
         == if !create then (db, Err(NoRound)) else if now >= ExpiresAt(q) then (db, Err(QuoteExpired))
            else BotCreate(Run(db, between), c, q, env, source)
  {
  }

  lemma CreatedExactly(db: Db, c: Caller, q: Quote, now: int, env: Env, source: Source)
    requires Inv(db) && ValidConfig(Dice, env.config) && EconomyOk(env) && Refusal(c, q, now).None?
    requires RoundByKey(db, c.user, Dice, Key(q)).None?
    ensures BotCreate(db, c, q, env, source).1.Ok? <==> MayStart(db, c.user, Dice, Key(q), q.cid, Terms(q), env, 2)
  {
    CreateTakenExactly(db, c.user, Dice, Key(q), q.cid, Terms(q), env, source);
    if CreateFast(db, c.user, Dice, Key(q), q.cid, Terms(q), env, source).Ok? {
      CreateForm(db, c.user, Dice, Key(q), q.cid, Terms(q), env, source);
      FreshWithoutKey(db, c.user, Dice, Key(q), q.cid, Terms(q), env);
      PlayTells(db, c, q, now, env, source);
    }
  }

  /** The message of an accepted play, told from the quote, the seed and the player's wallet: the terms quoted, the
      seed's faces, the wager in units, what those faces pay on the side quoted, what the cap keeps back of it, and the
      change of the wallet; a win, a draw or a loss by whether more, as much or less than the stake was paid. */
  lemma MessageTells(db: Db, c: Caller, q: Quote, now: int, env: Env, source: Source)
    requires Inv(db) && ValidConfig(Dice, env.config) && Refusal(c, q, now).None?
    requires RoundByKey(db, c.user, Dice, Key(q)).None? && BotCreate(db, c, q, env, source).1.Ok?
    ensures var (after, m) := BotCreate(db, c, q, env, source);
            && c.user in db.wallets && c.user in after.wallets && AllDigits(q.wager)
            && Reports(m.value, q, env, source, Assets(db, c.user, env),
                       after.wallets[c.user].balance - db.wallets[c.user].balance)
            && HasKey(after, m.value.id, c.user, Dice, Key(q))
  {
    DicePays(db, c.user, Key(q), q.cid, Terms(q), env, source);
    var (after, shown) := CreateFast(db, c.user, Dice, Key(q), q.cid, Terms(q), env, source).value;
    ProjectedRow(shown, q);
  }

  /** What a message says of a round that moved its player's wallet by `change`. */
  predicate Reports(m: Message, q: Quote, env: Env, source: Source, assets: int, change: int)
    requires AllDigits(q.wager)
  {
    && m.wager == q.wager && m.choice == q.choice && SeedDice(source, m.dice, m.total)
    && m.stake == Value(q.wager) * UNITS_PER_CHIP && env.config.DiceConfig?
    && m.gross == DicePayout(m.dice, q.choice == "BIG", env.config.pushOnTriple, m.stake)
    && m.withheld == Clip(env.economy, assets, m.stake, m.gross)
    && m.credited == m.gross - m.withheld && m.net == m.credited - m.stake == change
    && (m.result == FairReturn.Win <==> m.gross > m.stake) && (m.result == FairReturn.Loss <==> m.gross < m.stake)
    && (m.result == FairReturn.BreakEven <==> m.gross == m.stake)
  }

  /** A message is the row it is about. */
  lemma ProjectedRow(s: Shown, q: Quote)
    requires Matching(s, q).Ok?
    ensures var m, r := Matching(s, q).value, s.round;
            && s.view.Fast? && s.view.outcome.typed.DiceResult?
            && m.id == s.id && m.wager == q.wager && m.choice == q.choice
            && m.dice == s.view.outcome.typed.dice && m.total == s.view.outcome.typed.total
            && m.stake == r.stake && m.gross == r.payout && m.withheld == r.withheld
            && m.credited == r.payout - r.withheld && m.net == r.payout - r.withheld - r.stake
            && (m.result == FairReturn.Win <==> r.payout > r.stake)
            && (m.result == FairReturn.Loss <==> r.payout < r.stake)
            && (m.result == FairReturn.BreakEven <==> r.payout == r.stake)
  {
  }

  lemma FreshProjects(shown: Shown, after: Db, q: Quote, now: int, config: Config, source: Source)
    requires Verified(q, now) && WalletsOk(after) && config.DiceConfig? && shown.id in after.rounds
    requires Normalize(Dice, Terms(q)).Ok? && Derived(Dice, Terms(q), config, source).Some?
    requires shown == Shown(shown.id, after.rounds[shown.id], Fast(Derived(Dice, Terms(q), config, source).value))
    requires shown.round.game == Dice && shown.round.phase == Settled && shown.round.request == Terms(q)
    requires shown.round.stake == Normalize(Dice, Terms(q)).value.totalStake
    ensures Project(shown).Ok?
  {
    ThreeFaces(Faces(source));
  }

  lemma ThreeFaces(dice: seq<nat>)
    requires |dice| == 3
    ensures SumOfFaces(dice) == dice[0] + dice[1] + dice[2]
  {
    assert SumOfFaces(dice[..1]) == dice[0] by { assert dice[..1][..0] == []; }
    assert SumOfFaces(dice[..2]) == dice[0] + dice[1] by { assert dice[..2][..1] == dice[..1]; }
  }

  /** The bot's own code, over the game service. */
  class Bot {
    const games: Service

    constructor (games: Service)
      ensures this.games == games
    {
      this.games := games;
    }

    /** The projection, with its loop over the faces. */
    static method ProjectRound(s: Shown) returns (r: Result<Message, BotError>)
      ensures r == Project(s)
    {
      if !DiceRound(s) {
        return Err(UpstreamUnavailable);
      }
      var round, t := s.round, s.view.outcome.typed;
      var total := 0;
      for i := 0 to |t.dice|
        invariant FacesOk(t.dice[..i]) && total == SumOfFaces(t.dice[..i])
      {
        var face := t.dice[i];
        if face < 1 || face > 6 {
          assert !FacesOk(t.dice);
          return Err(UpstreamUnavailable);
        }
        assert t.dice[..i + 1][..i] == t.dice[..i];
        total := total + face;
      }
      assert t.dice[..|t.dice|] == t.dice;
      if total != t.total {
        return Err(UpstreamUnavailable);
      }
      var credited := round.payout - round.withheld;
      r := Ok(Message(s.id, round.request.wager, round.request.choice, t.dice, total,
                      FairReturn.ClassOf(round.payout - round.stake), round.stake, round.payout, round.withheld,
                      credited, credited - round.stake));
    }

    method Result(c: Caller, q: Quote, now: int, create: bool, env: Env, source: Source)
      returns (r: Result<Message, BotError>)
      requires games.Valid() && ValidConfig(Dice, env.config)
      modifies games
      ensures games.Valid()
      ensures (games.db, r) == BotResult(old(games.db), [], c, q, now, create, env, source)
    {
      var refusal := Refusal(c, q, now);
      if refusal.Some? {
        return Err(refusal.value);
      }
      var found := games.FindByKey(c.user, Dice, Key(q), env);
      if found.Err? {
        return Err(Game(found.error));
      }
      if found.value.Some? {
        r := Matched(found.value.value, q);
        return;
      }
      if !create {
        return Err(NoRound);
      }
      if now >= ExpiresAt(q) {
        return Err(QuoteExpired);
      }
      r := PlayNew(c, q, env, source);
    }

    method PlayNew(c: Caller, q: Quote, env: Env, source: Source) returns (r: Result<Message, BotError>)
      requires games.Valid() && ValidConfig(Dice, env.config)
      modifies games
      ensures games.Valid() && (games.db, r) == BotCreate(old(games.db), c, q, env, source)
    {
      var created := games.Create(c.user, Dice, Key(q), q.cid, Terms(q), env, source);
      if created.Err? {
        return Err(Game(created.error));
      }
      r := Matched(created.value, q);
    }

    static method Matched(s: Shown, q: Quote) returns (r: Result<Message, BotError>)
      ensures r == Matching(s, q)
    {
      if s.round.request != Terms(q) {
        return Err(Conflict);
      }
      r := ProjectRound(s);
    }
  }
}
