/** The smaller row changes of the game transactions, and what is never rewritten once stored. */
module GameUpdates {
  import opened Numbers
  import opened Wrappers
  import opened Wagers
  import opened FastGames
  import opened GameStore
  import opened GameInvariant

  // -------------------------------------------------------------- history

  /** A round keeps its terms for ever, and everything but the presentation mark once settled. */
  predicate Grows(r: Round, r': Round) {
    && r'.user == r.user && r'.game == r.game && r'.commitment == r.commitment && r'.nonce == r.nonce
    && r'.key == r.key && r'.request == r.request && r'.initial == r.initial && r'.rows == r.rows
    && r.stake <= r'.stake && r.version <= r'.version && (r.review ==> r'.review) && (r.presented ==> r'.presented)
    && (r.phase == Settled ==> r'.(presented := r.presented) == r)
  }

  /** AVAILABLE to CONSUMED to REVEALED, or AVAILABLE to INVALIDATED; nothing else of a commitment moves. */
  predicate Advances(c: Commitment, c': Commitment) {
    && c'.(state := c.state) == c
    && (c'.state == c.state || c.state == Available || (c.state == Consumed && c'.state == Revealed))
  }

  ghost predicate RoundsGrow(db: Db, db': Db) {
    forall id :: id in db.rounds ==> id in db'.rounds && Grows(db.rounds[id], db'.rounds[id])
  }

  ghost predicate CommitmentsAdvance(db: Db, db': Db) {
    && (forall c :: c in db.commitments ==> c in db'.commitments && Advances(db.commitments[c], db'.commitments[c]))
    && (forall c, d :: c in db'.commitments && c !in db.commitments && d in db.commitments
                       && SameSlot(db'.commitments[c], db.commitments[d])
          ==> db.commitments[d].nonce < db'.commitments[c].nonce)
  }

  ghost predicate RowsStay(db: Db, db': Db) {
    && (forall a :: a in db.actions ==> a in db'.actions && db'.actions[a] == db.actions[a])
    && (forall id :: id in db.supply ==> id in db'.supply && db'.supply[id] == db.supply[id])
    && (forall u :: u in db.wallets ==> u in db'.wallets)
  }

  ghost predicate Extends(db: Db, db': Db) { RoundsGrow(db, db') && CommitmentsAdvance(db, db') && RowsStay(db, db') }

  lemma AdvanceTwice(a: Db, b: Db, c: Db)
    requires CommitmentsAdvance(a, b) && CommitmentsAdvance(b, c)
    ensures CommitmentsAdvance(a, c)
  {
    forall x, d | x in c.commitments && x !in a.commitments && d in a.commitments
                  && SameSlot(c.commitments[x], a.commitments[d])
      ensures a.commitments[d].nonce < c.commitments[x].nonce
    {
      assert Advances(a.commitments[d], b.commitments[d]);
      if x in b.commitments { assert Advances(b.commitments[x], c.commitments[x]); }
    }
  }

  lemma GrowTwice(a: Db, b: Db, c: Db)
    requires RoundsGrow(a, b) && RoundsGrow(b, c)
    ensures RoundsGrow(a, c)
  {
  }

  lemma ExtendsTwice(a: Db, b: Db, c: Db)
    requires Extends(a, b) && Extends(b, c)
    ensures Extends(a, c)
  {
    GrowTwice(a, b, c);
    AdvanceTwice(a, b, c);
  }

  /** What each transaction has to show. */
  ghost predicate Sound(db: Db, db': Db) { Inv(db') && Chips(db') == Chips(db) && Extends(db, db') }

  // ------------------------------------------------- the remaining changes

  ghost predicate SameLedger(db: Db, db': Db) {
    && db'.wallets == db.wallets && db'.cursors == db.cursors && db'.commitments == db.commitments
    && db'.rounds == db.rounds && db'.supply == db.supply
  }

  lemma SameLedgerKeeps(db: Db, db': Db)
    requires SameLedger(db, db')
    ensures CommitmentsOk(db) ==> CommitmentsOk(db')
    ensures LinksOk(db) ==> LinksOk(db')
    ensures RoundsOk(db) ==> RoundsOk(db')
    ensures MoneyOk(db) ==> MoneyOk(db')
    ensures Chips(db') == Chips(db) && RoundsGrow(db, db') && CommitmentsAdvance(db, db')
  {
    if LinksOk(db) { SameLinks(db, db'); }
    SameMoney(db, db');
  }

  lemma SameLinks(db: Db, db': Db)
    requires SameLedger(db, db') && LinksOk(db)
    ensures LinksOk(db')
  {
    forall id | id in db'.rounds ensures RoundMatches(db', id, db'.rounds[id]) {
      assert RoundMatches(db, id, db.rounds[id]);
    }
  }

  lemma SameMoney(db: Db, db': Db)
    requires SameLedger(db, db')
    ensures MoneyOk(db) ==> MoneyOk(db')
    ensures Chips(db') == Chips(db) && RoundsGrow(db, db')
  {
  }

  lemma PreferenceKeeps(db: Db, user: User, game: Game, p: Preference)
    requires Inv(db)
    ensures Sound(db, WithPreference(db, user, game, p))
  {
    var db' := WithPreference(db, user, game, p);
    SameLedgerKeeps(db, db');
    SameRefsKeeps(db, db', {});
  }

  lemma SameRefsKeeps(db: Db, db': Db, except: set<Id>)
    requires RefsOk(db) && SameLedger(db, db') && db'.actions == db.actions && db'.jobs == db.jobs
    ensures RefsOk(db') && (AtRest(db, except) ==> AtRest(db', except)) && RowsStay(db, db')
  {
    if AtRest(db, except) { RestKeeps(db, db', except); }
  }

  function SetJob(db: Db, k: (Id, JobKind), job: Job): Db { db.(jobs := db.jobs[k := job]) }

  /** A job is written for a stored round: pending only while it is live, and then never taken away from it. */
  ghost predicate MaySetJob(db: Db, k: (Id, JobKind), job: Job) {
    && k.0 in db.rounds
    && (job.status == Pending ==> Live(db.rounds[k.0]))
    && (k.1 == AutoResolve && Live(db.rounds[k.0]) ==> job.status == Pending)
  }

  lemma SetJobKeepsRefs(db: Db, k: (Id, JobKind), job: Job, except: set<Id>)
    requires RefsOk(db) && AtRest(db, except) && MaySetJob(db, k, job)
    ensures var db' := SetJob(db, k, job);
            && RefsOk(db') && AtRest(db', except) && RowsStay(db, db')
            && (k.1 == AutoResolve && db.rounds[k.0].game == Blackjack ==> AtRest(db', except - {k.0}))
  {
    var db' := SetJob(db, k, job);
    forall id | id in db.rounds && Live(db.rounds[id]) && AwaitsResolve(db, id) ensures AwaitsResolve(db', id) {}
  }

  lemma SetJobKeeps(db: Db, k: (Id, JobKind), job: Job, except: set<Id>)
    requires Core(db) && AtRest(db, except) && MaySetJob(db, k, job)
    ensures var db' := SetJob(db, k, job);
            && Core(db') && AtRest(db', except) && Chips(db') == Chips(db) && Extends(db, db')
            && (k.1 == AutoResolve && db.rounds[k.0].game == Blackjack ==> AtRest(db', except - {k.0}))
  {
    SameLedgerKeeps(db, SetJob(db, k, job));
    SetJobKeepsRefs(db, k, job, except);
  }

  /** Any pending job may be moved; one that is not the auto-resolve of a live round may be closed. */
  lemma PendingJobKeeps(db: Db, k: (Id, JobKind), job: Job)
    requires Inv(db) && k in db.jobs && db.jobs[k].status == Pending && (job.status == Pending || k.1 == Recovery)
    ensures Sound(db, SetJob(db, k, job))
  {
    SetJobKeeps(db, k, job, {});
  }

  lemma RescheduledKeeps(db: Db, id: Id, due: int)
    requires Inv(db)
    ensures Sound(db, Rescheduled(db, id, due))
  {
    if AwaitsResolve(db, id) {
      PendingJobKeeps(db, (id, AutoResolve), db.jobs[(id, AutoResolve)].(runAt := due));
    } else {
      SelfSound(db);
    }
  }

  lemma RetryKeeps(db: Db, id: Id, kind: JobKind, now: int)
    requires Inv(db)
    ensures Sound(db, RetryJob(db, id, kind, now))
  {
    if (id, kind) in db.jobs && db.jobs[(id, kind)].status == Pending {
      PendingJobKeeps(db, (id, kind), db.jobs[(id, kind)].(runAt := now + 30));
    } else {
      SelfSound(db);
    }
  }

  lemma SelfSound(db: Db)
    requires Inv(db)
    ensures Sound(db, db)
  {
  }

  lemma WithJobsKeeps(db: Db, id: Id, env: Env, due: int)
    requires Core(db) && AtRest(db, {id}) && id in db.rounds && Live(db.rounds[id]) && db.rounds[id].game == Blackjack
    ensures Sound(db, WithJobs(db, id, env, due))
  {
    var resolve, recovery := Job(env.jobIds.0, Pending, due), Job(env.jobIds.1, Pending, env.now);
    var mid := SetJob(db, (id, AutoResolve), resolve);
    SetJobKeeps(db, (id, AutoResolve), resolve, {id});
    assert {id} - {id} == {};
    SetJobKeeps(mid, (id, Recovery), recovery, {});
    ExtendsTwice(db, mid, WithJobs(db, id, env, due));
  }

  /** Action rows are only added, for stored rounds of the same user. */
  ghost predicate MayRecord(db: Db, actions: map<Id, ActionRow>) {
    && (forall a :: a in db.actions ==> a in actions && actions[a] == db.actions[a])
    && (forall a :: a in actions && a !in db.actions ==>
          actions[a].round in db.rounds && actions[a].user == db.rounds[actions[a].round].user)
  }

  lemma ActionsKeepRefs(db: Db, actions: map<Id, ActionRow>)
    requires RefsOk(db) && AtRest(db, {}) && MayRecord(db, actions)
    ensures var db' := db.(actions := actions); RefsOk(db') && AtRest(db', {}) && RowsStay(db, db')
  {
    RestKeeps(db, db.(actions := actions), {});
  }

  lemma ActionsKeep(db: Db, actions: map<Id, ActionRow>)
    requires Inv(db) && MayRecord(db, actions)
    ensures Sound(db, db.(actions := actions))
  {
    SameLedgerKeeps(db, db.(actions := actions));
    ActionsKeepRefs(db, actions);
  }

  lemma SoundTwice(a: Db, b: Db, c: Db)
    requires Sound(a, b) && Sound(b, c)
    ensures Sound(a, c)
  {
    ExtendsTwice(a, b, c);
  }

  lemma {:induction false} SystemActionsAdded(actions: map<Id, ActionRow>, user: User, id: Id, ids: seq<Id>,
                                              version: nat, shown: Round)
    ensures var after := WithSystemActions(actions, user, id, ids, version, shown);
            && (forall a :: a in actions ==> a in after && (a !in ids ==> after[a] == actions[a]))
            && (forall a :: a in after && a !in actions ==> after[a].round == id && after[a].user == user)
    decreases |ids|
  {
    if ids != [] {
      var row := ActionRow(user, id, ActionInput(ids[0], SystemAutoStand, 0, version), Some(shown));
      SystemActionsAdded(actions[ids[0] := row], user, id, ids[1..], version + 1, shown);
      SystemActionsLast(actions[ids[0] := row], user, id, ids[1..], version + 1, shown, ids[0]);
    }
  }

  /** A key already owned by the round stays so. */
  lemma {:induction false} SystemActionsLast(actions: map<Id, ActionRow>, user: User, id: Id, ids: seq<Id>,
                                             version: nat, shown: Round, a: Id)
    requires a in actions && actions[a].round == id && actions[a].user == user
    ensures var after := WithSystemActions(actions, user, id, ids, version, shown);
            a in after && after[a].round == id && after[a].user == user
    decreases |ids|
  {
    if ids != [] {
      var row := ActionRow(user, id, ActionInput(ids[0], SystemAutoStand, 0, version), Some(shown));
      SystemActionsLast(actions[ids[0] := row], user, id, ids[1..], version + 1, shown, a);
    }
  }

  function SetWallet(db: Db, user: User, w: Wallet): Db { db.(wallets := db.wallets[user := w]) }

  lemma WalletKeepsShape(db: Db, user: User, w: Wallet)
    requires CommitmentsOk(db) && LinksOk(db) && RoundsOk(db)
    ensures var db' := SetWallet(db, user, w); CommitmentsOk(db') && LinksOk(db') && RoundsOk(db')
  {
    SameShapeKeeps(db, SetWallet(db, user, w));
  }

  lemma WalletKeepsRest(db: Db, user: User, w: Wallet)
    requires MoneyOk(db) && RefsOk(db) && AtRest(db, {}) && WalletOk(w)
    ensures var db' := SetWallet(db, user, w); MoneyOk(db') && RefsOk(db') && AtRest(db', {}) && Extends(db, db')
  {
    RestKeeps(db, SetWallet(db, user, w), {});
  }

  lemma WalletKeeps(db: Db, user: User, w: Wallet)
    requires Inv(db) && WalletOk(w)
    ensures var db' := SetWallet(db, user, w);
            && Inv(db') && Extends(db, db')
            && Chips(db') == Chips(db) + w.balance - (if user in db.wallets then db.wallets[user].balance else 0)
  {
    SumOfUpdate(db.wallets, BalanceOf(), user, w);
    WalletKeepsShape(db, user, w);
    WalletKeepsRest(db, user, w);
  }

  // -------------------------------------------------- round marks

  /** Marks on a round that leave its amounts and phase alone. */
  ghost predicate MarksOnly(db: Db, db': Db, id: Id) {
    && id in db.rounds && id in db'.rounds && db'.rounds == db.rounds[id := db'.rounds[id]]
    && SameShape(db.rounds[id], db'.rounds[id]) && Grows(db.rounds[id], db'.rounds[id])
    && db'.rounds[id].stake == db.rounds[id].stake && db'.rounds[id].payout == db.rounds[id].payout
    && db'.rounds[id].withheld == db.rounds[id].withheld
    && (db'.rounds[id].fair == db.rounds[id].fair || 0 <= db'.rounds[id].fair)
    && db'.wallets == db.wallets && db'.cursors == db.cursors && db'.commitments == db.commitments
    && db'.supply == db.supply
  }

  lemma MarksKeepShape(db: Db, db': Db, id: Id)
    requires CommitmentsOk(db) && LinksOk(db) && RoundsOk(db) && MarksOnly(db, db', id)
    ensures CommitmentsOk(db') && LinksOk(db') && RoundsOk(db')
  {
    SameShapeKeeps(db, db');
  }

  lemma MarksKeepMoney(db: Db, db': Db, id: Id)
    requires MoneyOk(db) && MarksOnly(db, db', id)
    ensures MoneyOk(db')
  {
  }

  lemma MarksKeepChips(db: Db, db': Db, id: Id)
    requires MarksOnly(db, db', id)
    ensures Chips(db') == Chips(db) && RoundsGrow(db, db') && CommitmentsAdvance(db, db')
  {
    SumOfUpdate(db.rounds, OpenStakes(), id, db'.rounds[id]);
  }

  lemma ReviewKeepsRefs(db: Db, id: Id)
    requires RefsOk(db) && AtRest(db, {}) && id in db.rounds
    ensures RefsOk(MarkReview(db, id)) && AtRest(MarkReview(db, id), {}) && RowsStay(db, MarkReview(db, id))
  {
    RestKeeps(db, MarkReview(db, id), {});
  }

  lemma MarksKeep(db: Db, db': Db, id: Id)
    requires Inv(db) && MarksOnly(db, db', id) && RefsOk(db') && AtRest(db', {}) && RowsStay(db, db')
    ensures Sound(db, db')
  {
    MarksKeepShape(db, db', id);
    MarksKeepMoney(db, db', id);
    MarksKeepChips(db, db', id);
  }

  lemma ReviewMarks(db: Db, id: Id)
    requires id in db.rounds
    ensures MarkReview(db, id) == db || MarksOnly(db, MarkReview(db, id), id)
  {
  }

  lemma ReviewKeeps(db: Db, id: Id)
    requires Inv(db) && id in db.rounds
    ensures Sound(db, MarkReview(db, id))
  {
    ReviewMarks(db, id);
    ReviewKeepsRefs(db, id);
    if MarkReview(db, id) == db { SelfSound(db); } else { MarksKeep(db, MarkReview(db, id), id); }
  }

  lemma AfterReadKeeps(db: Db, id: Id, env: Env)
    requires Inv(db)
    ensures Sound(db, AfterRead(db, id, env))
  {
    if id in db.rounds { ReviewKeeps(db, id); }
    SelfSound(db);
  }

  lemma RoundMarkKeepsRefs(db: Db, id: Id, r: Round, except: set<Id>)
    requires RefsOk(db) && AtRest(db, except) && id in db.rounds && SameShape(db.rounds[id], r)
    requires r.review == db.rounds[id].review
    ensures var db' := db.(rounds := db.rounds[id := r]); RefsOk(db') && AtRest(db', except) && RowsStay(db, db')
  {
    RestKeeps(db, db.(rounds := db.rounds[id := r]), except);
  }

  lemma RoundMarkKeeps(db: Db, id: Id, r: Round)
    requires Inv(db) && id in db.rounds && MarksOnly(db, db.(rounds := db.rounds[id := r]), id)
    requires r.review == db.rounds[id].review
    ensures Sound(db, db.(rounds := db.rounds[id := r]))
  {
    RoundMarkKeepsRefs(db, id, r, {});
    MarksKeep(db, db.(rounds := db.rounds[id := r]), id);
  }

  // ----------------------------------------------------------- commitments

  ghost function Issued(db: Db, user: User, game: Game, binding: Binding, id: Id, roundId: Id, draw: nat): Db
    requires NextCommitment(db, user, game, binding, id, roundId, draw).Ok?
  {
    NextCommitment(db, user, game, binding, id, roundId, draw).value.0
  }

  /** An issue adds one available commitment at the cursor and invalidates at most the one held before. */
  ghost predicate IssuesAt(db: Db, db': Db, user: User, game: Game, id: Id) {
    && id !in db.commitments && db'.commitments.Keys == db.commitments.Keys + {id}
    && !CursorOf(db, user, game).exhausted
    && db'.commitments[id].user == user && db'.commitments[id].game == game
    && db'.commitments[id].nonce == CursorOf(db, user, game).next && db'.commitments[id].state == Available
    && forall c :: c in db.commitments ==>
         || db'.commitments[c] == db.commitments[c]
         || (db.commitments[c].state == Available && db'.commitments[c] == db.commitments[c].(state := Invalidated))
  }

  lemma IssueShape(db: Db, user: User, game: Game, binding: Binding, id: Id, roundId: Id, draw: nat)
    requires NextCommitment(db, user, game, binding, id, roundId, draw).Ok?
    ensures var db' := Issued(db, user, game, binding, id, roundId, draw);
            && db'.rounds == db.rounds && (db' == db || IssuesAt(db, db', user, game, id))
  {
  }

  /** The new nonce exceeds every earlier one, also at the last representable value. */
  lemma IssueAdvances(db: Db, user: User, game: Game, binding: Binding, id: Id, roundId: Id, draw: nat)
    requires CommitmentsOk(db) && NextCommitment(db, user, game, binding, id, roundId, draw).Ok?
    ensures CommitmentsAdvance(db, Issued(db, user, game, binding, id, roundId, draw))
  {
    IssueShape(db, user, game, binding, id, roundId, draw);
  }

  lemma IssueKeepsCursors(db: Db, user: User, game: Game, binding: Binding, id: Id, roundId: Id, draw: nat)
    requires CommitmentsOk(db) && NextCommitment(db, user, game, binding, id, roundId, draw).Ok?
    ensures CursorsAhead(Issued(db, user, game, binding, id, roundId, draw))
  {
  }

  /** A user has at most one available commitment per game. */
  lemma AvailableUnique(db: Db, c: Id, d: Id)
    requires CommitmentsOk(db) && c in db.commitments && d in db.commitments
    requires SameSlot(db.commitments[c], db.commitments[d])
    requires db.commitments[c].state == Available && db.commitments[d].state == Available
    ensures c == d
  {
    assert SameSlot(db.commitments[d], db.commitments[c]);
  }

  /** An issue adds one commitment, the only available one of its slot. */
  ghost predicate Adds(db: Db, db': Db, id: Id) {
    && id !in db.commitments && db'.commitments.Keys == db.commitments.Keys + {id}
    && (forall x :: x in db.commitments ==> db.commitments[x].roundId != db'.commitments[id].roundId)
    && (forall x :: x in db.commitments && db'.commitments[x].state == Available
          ==> db.commitments[x].state == Available && !SameSlot(db.commitments[x], db'.commitments[id]))
  }

  lemma IssueAdds(db: Db, user: User, game: Game, binding: Binding, id: Id, roundId: Id, draw: nat)
    requires CommitmentsOk(db) && NextCommitment(db, user, game, binding, id, roundId, draw).Ok?
    ensures var db' := Issued(db, user, game, binding, id, roundId, draw); db' == db || Adds(db, db', id)
  {
    var db' := Issued(db, user, game, binding, id, roundId, draw);
    if db' != db {
      forall x | x in db.commitments && db'.commitments[x].state == Available
        ensures db.commitments[x].state == Available && !SameSlot(db.commitments[x], db'.commitments[id])
      {
        if SameSlot(db.commitments[x], db'.commitments[id]) {
          assert HoldsAvailable(db, x, user, game);
          AvailableUnique(db, x, AvailableCommitment(db, user, game).value);
        }
      }
    }
  }

  lemma AddsKeepsOrder(db: Db, db': Db, id: Id)
    requires CommitmentsOk(db) && CommitmentsAdvance(db, db') && Adds(db, db', id)
    ensures NoncesDistinct(db') && AvailableIsLast(db') && RoundIdsDistinct(db')
  {
    forall c, d | c in db'.commitments && d in db'.commitments
      ensures c != d && SameSlot(db'.commitments[c], db'.commitments[d]) ==>
                db'.commitments[c].nonce != db'.commitments[d].nonce
      ensures c != d ==> db'.commitments[c].roundId != db'.commitments[d].roundId
      ensures SameSlot(db'.commitments[c], db'.commitments[d]) && db'.commitments[c].state == Available
              ==> db'.commitments[d].nonce <= db'.commitments[c].nonce
    {
      if c in db.commitments { assert Advances(db.commitments[c], db'.commitments[c]); }
      if d in db.commitments { assert Advances(db.commitments[d], db'.commitments[d]); }
      if c in db.commitments && d in db.commitments {
        assert SameSlot(db'.commitments[c], db'.commitments[d]) <==> SameSlot(db.commitments[c], db.commitments[d]);
      }
    }
  }

  lemma IssueKeepsOrder(db: Db, user: User, game: Game, binding: Binding, id: Id, roundId: Id, draw: nat)
    requires CommitmentsOk(db) && NextCommitment(db, user, game, binding, id, roundId, draw).Ok?
    ensures var db' := Issued(db, user, game, binding, id, roundId, draw);
            NoncesDistinct(db') && AvailableIsLast(db') && RoundIdsDistinct(db')
  {
    var db' := Issued(db, user, game, binding, id, roundId, draw);
    IssueAdvances(db, user, game, binding, id, roundId, draw);
    IssueAdds(db, user, game, binding, id, roundId, draw);
    if db' != db { AddsKeepsOrder(db, db', id); }
  }

  predicate Spent(c: Commitment) { c.state in {Consumed, Revealed} }

  lemma LinksFrame(db: Db, db': Db)
    requires LinksOk(db) && db'.rounds == db.rounds
    requires forall c :: c in db.commitments && Spent(db.commitments[c]) ==>
              c in db'.commitments && db'.commitments[c] == db.commitments[c]
    requires forall c :: c in db'.commitments && Spent(db'.commitments[c]) ==>
              c in db.commitments && Spent(db.commitments[c])
    ensures LinksOk(db')
  {
    forall k | k in db'.rounds ensures RoundMatches(db', k, db'.rounds[k]) {
      assert RoundMatches(db, k, db.rounds[k]) && Spent(db.commitments[db.rounds[k].commitment]);
    }
    forall c | c in db'.commitments && db'.commitments[c].state in {Consumed, Revealed}
      ensures db'.commitments[c].roundId in db'.rounds && db'.rounds[db'.commitments[c].roundId].commitment == c
    {
      assert Spent(db'.commitments[c]);
    }
  }

  lemma IssueKeepsLinks(db: Db, user: User, game: Game, binding: Binding, id: Id, roundId: Id, draw: nat)
    requires LinksOk(db) && NextCommitment(db, user, game, binding, id, roundId, draw).Ok?
    ensures LinksOk(Issued(db, user, game, binding, id, roundId, draw))
  {
    IssueShape(db, user, game, binding, id, roundId, draw);
    LinksFrame(db, Issued(db, user, game, binding, id, roundId, draw));
  }

  /** The parts of the store a commitment does not touch. */
  ghost predicate SameRows(db: Db, db': Db) {
    && db'.wallets == db.wallets && db'.rounds == db.rounds && db'.supply == db.supply
    && db'.actions == db.actions && db'.jobs == db.jobs
  }

  lemma SameRoundsKeeps(db: Db, db': Db)
    requires SameRows(db, db')
    ensures RoundsOk(db) ==> RoundsOk(db')
    ensures MoneyOk(db) ==> MoneyOk(db')
    ensures RefsOk(db) ==> RefsOk(db')
    ensures Chips(db') == Chips(db) && RoundsGrow(db, db') && RowsStay(db, db')
  {
  }

  lemma IssueKeeps(db: Db, user: User, game: Game, binding: Binding, id: Id, roundId: Id, draw: nat)
    requires Inv(db) && NextCommitment(db, user, game, binding, id, roundId, draw).Ok?
    ensures Sound(db, Issued(db, user, game, binding, id, roundId, draw))
    ensures var (db', c) := NextCommitment(db, user, game, binding, id, roundId, draw).value;
            HoldsAvailable(db', c, user, game) && db'.commitments[c].binding == binding
  {
    IssueAdvances(db, user, game, binding, id, roundId, draw);
    IssueKeepsCursors(db, user, game, binding, id, roundId, draw);
    IssueKeepsOrder(db, user, game, binding, id, roundId, draw);
    IssueKeepsLinks(db, user, game, binding, id, roundId, draw);
    IssueKeepsRounds(db, user, game, binding, id, roundId, draw);
    IssueHolds(db, user, game, binding, id, roundId, draw);
  }

  lemma IssueHolds(db: Db, user: User, game: Game, binding: Binding, id: Id, roundId: Id, draw: nat)
    requires NextCommitment(db, user, game, binding, id, roundId, draw).Ok?
    ensures var (db', c) := NextCommitment(db, user, game, binding, id, roundId, draw).value;
            HoldsAvailable(db', c, user, game) && db'.commitments[c].binding == binding
  {
  }

  lemma IssueKeepsRounds(db: Db, user: User, game: Game, binding: Binding, id: Id, roundId: Id, draw: nat)
    requires RoundsOk(db) && MoneyOk(db) && RefsOk(db) && AtRest(db, {})
    requires NextCommitment(db, user, game, binding, id, roundId, draw).Ok?
    ensures var db' := Issued(db, user, game, binding, id, roundId, draw);
            && RoundsOk(db') && MoneyOk(db') && RefsOk(db') && AtRest(db', {}) && Chips(db') == Chips(db)
            && RoundsGrow(db, db') && RowsStay(db, db')
  {
    IssueSameRows(db, user, game, binding, id, roundId, draw);
    SameRoundsKeeps(db, Issued(db, user, game, binding, id, roundId, draw));
    SameRest(db, Issued(db, user, game, binding, id, roundId, draw));
  }

  lemma IssueSameRows(db: Db, user: User, game: Game, binding: Binding, id: Id, roundId: Id, draw: nat)
    requires NextCommitment(db, user, game, binding, id, roundId, draw).Ok?
    ensures SameRows(db, Issued(db, user, game, binding, id, roundId, draw))
  {
  }

  lemma SameRest(db: Db, db': Db)
    requires db'.rounds == db.rounds && db'.jobs == db.jobs && AtRest(db, {})
    ensures AtRest(db', {})
  {
    RestKeeps(db, db', {});
  }
}
