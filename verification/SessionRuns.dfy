/** What every interleaving keeps: the index covers live keys, so a revocation reaches them; and exactly when it
    cannot. */
module SessionRuns {
  import opened Numbers
  import opened Wrappers
  import opened Sessions

  function EpochIn(epochs: map<User, nat>, u: User): nat { if u in epochs then epochs[u] else 0 }

  /** When the index stops counting on a key: its captured clock reading plus its lifetime. */
  function Nominal(m: Mark): int { m.createdAt + Life(m.kind) }

  /** A stored key carries what was issued, and until its nominal end it is of the current epoch, indexed, and outlived
      by the index. */
  predicate KeyOk(redis: Redis, marks: map<Key, Mark>, epochs: map<User, nat>, time: int, k: Key) {
    && k in marks && k in redis.keys
    && redis.keys[k].user == marks[k].user && redis.keys[k].kind == marks[k].kind
    && redis.keys[k].createdAt == marks[k].createdAt
    && (marks[k].kind != SessionKey ==> redis.keys[k].deadline == marks[k].issuedAt + FLOW)
    && (time < Nominal(marks[k]) ==>
          && marks[k].epoch == EpochIn(epochs, marks[k].user)
          && marks[k].user in redis.index
          && Nominal(marks[k]) <= redis.index[marks[k].user].deadline
          && k in redis.index[marks[k].user].scores && redis.index[marks[k].user].scores[k] == Nominal(marks[k]))
  }

  ghost predicate KeysOk(redis: Redis, marks: map<Key, Mark>, epochs: map<User, nat>, time: int) {
    forall k :: k in redis.keys ==> KeyOk(redis, marks, epochs, time, k)
  }

  /** Index entries belong to keys of that user, at their nominal end. */
  ghost predicate ScoresOk(redis: Redis, marks: map<Key, Mark>) {
    forall u, k :: u in redis.index && k in redis.index[u].scores ==>
      k in marks && marks[k].user == u && redis.index[u].scores[k] == Nominal(marks[k])
  }

  ghost predicate MarksOk(marks: map<Key, Mark>, epochs: map<User, nat>, time: int) {
    forall k :: k in marks ==>
      marks[k].createdAt <= marks[k].issuedAt <= time && marks[k].epoch <= EpochIn(epochs, marks[k].user)
  }

  /** A read under way concerns a session; if that was revoked before the read began, it was past its thirty days by
      then. */
  ghost predicate ReadingOk(reading: map<Proc, Pending>, marks: map<Key, Mark>, time: int) {
    forall p :: p in reading ==>
      && reading[p].key in marks && marks[reading[p].key].kind == SessionKey && reading[p].startedAt <= time
      && (marks[reading[p].key].epoch < reading[p].epoch ==> Nominal(marks[reading[p].key]) <= reading[p].startedAt)
  }

  /** One holder per user; unless it revoked itself, nothing has been revoked since it checked the credentials. */
  ghost predicate LocksOk(holders: map<Proc, Holder>, epochs: map<User, nat>) {
    && (forall p, q :: p in holders && q in holders && holders[p].user == holders[q].user ==> p == q)
    && (forall p :: p in holders && !holders[p].revoked ==> holders[p].begin == EpochIn(epochs, holders[p].user))
  }

  /** A presented challenge is one that has not borne a session yet, and once spent it is gone. */
  ghost predicate ChallengesOk(holders: map<Proc, Holder>, marks: map<Key, Mark>, born: map<Key, Key>, keys: set<Key>) {
    forall p :: p in holders && holders[p].challenge.Some? ==>
      && holders[p].challenge.value in marks && marks[holders[p].challenge.value].user == holders[p].user
      && marks[holders[p].challenge.value].kind == ChallengeKey && holders[p].challenge.value !in born
      && (holders[p].spent ==> holders[p].challenge.value !in keys)
  }

  /** A challenge that has borne a session is gone for good. */
  ghost predicate BornOk(born: map<Key, Key>, marks: map<Key, Mark>, keys: set<Key>) {
    forall c :: c in born ==> c in marks && marks[c].kind == ChallengeKey && c !in keys
  }

  ghost predicate RedisOk(s: State) { KeysOk(s.redis, s.marks, s.epochs, s.time) && ScoresOk(s.redis, s.marks) }

  ghost predicate KeyInv(s: State) {
    && RedisOk(s) && MarksOk(s.marks, s.epochs, s.time) && ReadingOk(s.reading, s.marks, s.time)
    && LocksOk(s.holders, s.epochs)
    && ChallengesOk(s.holders, s.marks, s.born, s.redis.keys.Keys) && BornOk(s.born, s.marks, s.redis.keys.Keys)
  }

  /** A session accepted under the lock is of the user's current epoch. */
  ghost predicate SessionsHeld(holders: map<Proc, Holder>, marks: map<Key, Mark>, epochs: map<User, nat>) {
    forall p :: p in holders && holders[p].session.Some? ==>
      && holders[p].session.value in marks && marks[holders[p].session.value].kind == SessionKey
      && marks[holders[p].session.value].user == holders[p].user
      && marks[holders[p].session.value].epoch == EpochIn(epochs, holders[p].user)
  }

  /** A proof is bound to a session of its own user and epoch. */
  ghost predicate BoundOk(marks: map<Key, Mark>) {
    forall k :: k in marks && marks[k].kind == ProofKey ==>
      && marks[k].bound.Some? && marks[k].bound.value.session in marks
      && marks[marks[k].bound.value.session].user == marks[k].user
      && marks[marks[k].bound.value.session].epoch == marks[k].epoch
  }

  /** While the lock's holder reads a session of its user, that user's epoch stands still. */
  ghost predicate ReadsLocked(reading: map<Proc, Pending>, holders: map<Proc, Holder>, marks: map<Key, Mark>,
                              epochs: map<User, nat>) {
    forall p :: p in reading && p in holders
                && reading[p].key in marks && marks[reading[p].key].user == holders[p].user
      ==> reading[p].epoch == EpochIn(epochs, holders[p].user)
  }

  /** Stored later than it was asked for. */
  predicate Late(m: Mark) { m.createdAt < m.issuedAt }

  /** A presented challenge is of the current epoch, unless it was stored late. */
  ghost predicate ChallengesCurrent(holders: map<Proc, Holder>, marks: map<Key, Mark>, epochs: map<User, nat>) {
    forall p :: p in holders && holders[p].challenge.Some? && holders[p].challenge.value in marks ==>
      marks[holders[p].challenge.value].epoch
        == EpochIn(epochs, holders[p].user) || Late(marks[holders[p].challenge.value])
  }

  /** So is the session it bears. */
  ghost predicate BornCurrent(born: map<Key, Key>, marks: map<Key, Mark>) {
    forall c :: c in born && c in marks ==>
      born[c] in marks && (marks[born[c]].epoch == marks[c].epoch || Late(marks[c]))
  }

  ghost predicate FlowInv(s: State) {
    && SessionsHeld(s.holders, s.marks, s.epochs) && BoundOk(s.marks)
    && ReadsLocked(s.reading, s.holders, s.marks, s.epochs)
    && ChallengesCurrent(s.holders, s.marks, s.epochs) && BornCurrent(s.born, s.marks)
  }

  ghost predicate Inv(s: State) { KeyInv(s) && FlowInv(s) }

  // --------------------------------------------------------- script lemmas

  lemma TimeKeeps(redis: Redis, marks: map<Key, Mark>, epochs: map<User, nat>, time: int, t: int)
    requires KeysOk(redis, marks, epochs, time) && time <= t
    ensures KeysOk(redis, marks, epochs, t)
  {
    forall k | k in redis.keys ensures KeyOk(redis, marks, epochs, t, k) {
      assert KeyOk(redis, marks, epochs, time, k);
    }
  }

  /** Creating prunes only keys past their nominal end, and moves the index's own end beyond every lifetime it counts
      on. */
  lemma CreateKeeps(redis: Redis, marks: map<Key, Mark>, epochs: map<User, nat>, t: int, key: Key, m: Mark)
    requires KeysOk(redis, marks, epochs, t) && ScoresOk(redis, marks) && key !in marks
    requires forall k :: k in marks ==> marks[k].createdAt <= marks[k].issuedAt <= t
    requires m.createdAt <= m.issuedAt == t && m.epoch == EpochIn(epochs, m.user)
    ensures var r := CreateScript(redis, key, m.user, m.kind, m.createdAt, t);
            KeysOk(r, marks[key := m], epochs, t) && ScoresOk(r, marks[key := m])
  {
    var r := CreateScript(redis, key, m.user, m.kind, m.createdAt, t);
    forall k | k in r.keys ensures KeyOk(r, marks[key := m], epochs, t, k) {
      if k != key { CreateKeepsKey(redis, marks, epochs, t, key, m, k); }
    }
    CreateKeepsScores(redis, marks, t, key, m);
  }

  lemma CreateKeepsScores(redis: Redis, marks: map<Key, Mark>, t: int, key: Key, m: Mark)
    requires ScoresOk(redis, marks) && key !in marks
    ensures ScoresOk(CreateScript(redis, key, m.user, m.kind, m.createdAt, t), marks[key := m])
  {
  }

  lemma CreateKeepsKey(redis: Redis, marks: map<Key, Mark>, epochs: map<User, nat>, t: int, key: Key, m: Mark, k: Key)
    requires KeyOk(redis, marks, epochs, t, k) && k != key && m.createdAt <= t
    requires marks[k].createdAt <= marks[k].issuedAt <= t
    ensures KeyOk(CreateScript(redis, key, m.user, m.kind, m.createdAt, t), marks[key := m], epochs, t, k)
  {
  }

  lemma RevokeKeeps(redis: Redis, marks: map<Key, Mark>, epochs: map<User, nat>, t: int, key: Key, u: User)
    requires KeysOk(redis, marks, epochs, t) && ScoresOk(redis, marks)
    ensures KeysOk(RevokeScript(redis, key, u, t), marks, epochs, t) && ScoresOk(RevokeScript(redis, key, u, t), marks)
  {
    var r := RevokeScript(redis, key, u, t);
    forall k | k in r.keys ensures KeyOk(r, marks, epochs, t, k) { assert KeyOk(redis, marks, epochs, t, k); }
  }

  /** Revoking a user deletes every key of that user short of its nominal end. */
  lemma RevokeUserKeeps(redis: Redis, marks: map<Key, Mark>, epochs: map<User, nat>, t: int, u: User, e: nat)
    requires KeysOk(redis, marks, epochs, t) && ScoresOk(redis, marks)
    ensures KeysOk(RevokeUserScript(redis, u, t), marks, epochs[u := e], t)
    ensures ScoresOk(RevokeUserScript(redis, u, t), marks)
  {
    var r := RevokeUserScript(redis, u, t);
    forall k | k in r.keys ensures KeyOk(r, marks, epochs[u := e], t, k) { assert KeyOk(redis, marks, epochs, t, k); }
  }

  lemma RenewKeeps(redis: Redis, marks: map<Key, Mark>, epochs: map<User, nat>, t: int, key: Key, ttl: int)
    requires KeysOk(redis, marks, epochs, t) && ScoresOk(redis, marks) && key in marks && marks[key].kind == SessionKey
    ensures KeysOk(RenewScript(redis, key, ttl, t), marks, epochs, t)
    ensures ScoresOk(RenewScript(redis, key, ttl, t), marks)
  {
    var r := RenewScript(redis, key, ttl, t);
    forall k | k in r.keys ensures KeyOk(r, marks, epochs, t, k) { assert KeyOk(redis, marks, epochs, t, k); }
  }

  lemma ConsumeKeeps(redis: Redis, marks: map<Key, Mark>, epochs: map<User, nat>, t: int, key: Key)
    requires KeysOk(redis, marks, epochs, t) && ScoresOk(redis, marks)
    ensures KeysOk(ConsumeScript(redis, key), marks, epochs, t) && ScoresOk(ConsumeScript(redis, key), marks)
  {
    var r := ConsumeScript(redis, key);
    forall k | k in r.keys ensures KeyOk(r, marks, epochs, t, k) { assert KeyOk(redis, marks, epochs, t, k); }
  }

  lemma NextKeepsRedis(s: State, e: Step)
    requires KeyInv(s) && Enabled(s, e)
    ensures var s' := Next(s, e); KeysOk(s'.redis, s'.marks, s'.epochs, s'.time) && ScoresOk(s'.redis, s'.marks)
  {
    TimeKeeps(s.redis, s.marks, s.epochs, s.time, e.t);
    match e
    case Issue(p, key, kind, terms, now, t) =>
      CreateKeeps(s.redis, s.marks, s.epochs, t, key, Issued(s, e));
    case RevokeAll(p, t) =>
      RevokeUserKeeps(s.redis, s.marks, s.epochs, t, s.holders[p].user, Epoch(s, s.holders[p].user) + 1);
    case Logout(key, t) => RevokeKeeps(s.redis, s.marks, s.epochs, t, key, s.marks[key].user);
    case ReadEnd(p, now, t) =>
      var k := s.reading[p].key;
      RevokeKeeps(s.redis, s.marks, s.epochs, t, k, s.marks[k].user);
      RenewKeeps(s.redis, s.marks, s.epochs, t, k, Min(Remaining(s.marks[k], now), IDLE));
    case Spend(p, t) => RevokeKeeps(s.redis, s.marks, s.epochs, t, s.holders[p].challenge.value, s.holders[p].user);
    case Consume(p, key, terms, t) => ConsumeKeeps(s.redis, s.marks, s.epochs, t, key);
    case _ =>
  }

  // ----------------------------------------------- everything but the keys

  lemma MarksLater(marks: map<Key, Mark>, epochs: map<User, nat>, time: int, t: int)
    requires MarksOk(marks, epochs, time) && time <= t
    ensures MarksOk(marks, epochs, t)
  {
  }

  lemma ReadingLater(reading: map<Proc, Pending>, marks: map<Key, Mark>, time: int, t: int)
    requires ReadingOk(reading, marks, time) && time <= t
    ensures ReadingOk(reading, marks, t)
  {
  }

  lemma FewerKeys(holders: map<Proc, Holder>, marks: map<Key, Mark>, born: map<Key, Key>, keys: set<Key>,
                  keys': set<Key>)
    requires ChallengesOk(holders, marks, born, keys) && BornOk(born, marks, keys) && keys' <= keys
    ensures ChallengesOk(holders, marks, born, keys') && BornOk(born, marks, keys')
  {
  }

  lemma LockKeeps(s: State, p: Proc, user: User, t: int)
    requires KeyInv(s) && Enabled(s, Lock(p, user, t))
    ensures var h := s.holders[p := Holder(user, Epoch(s, user), t, false, None, None, false)];
            LocksOk(h, s.epochs) && ChallengesOk(h, s.marks, s.born, s.redis.keys.Keys)
  {
  }

  lemma UnlockKeeps(holders: map<Proc, Holder>, epochs: map<User, nat>, marks: map<Key, Mark>, born: map<Key, Key>,
                    keys: set<Key>, p: Proc)
    requires LocksOk(holders, epochs) && ChallengesOk(holders, marks, born, keys)
    ensures LocksOk(holders - {p}, epochs) && ChallengesOk(holders - {p}, marks, born, keys)
  {
  }

  /** The session issued after a challenge is the first and the last one that challenge bears. */
  lemma IssueKeepsBorn(holders: map<Proc, Holder>, marks: map<Key, Mark>, born: map<Key, Key>, keys: set<Key>, p: Proc,
                       key: Key, m: Mark)
    requires p in holders && key !in marks && ChallengesOk(holders, marks, born, keys) && BornOk(born, marks, keys)
    requires forall q :: q in holders && q != p ==> holders[q].user != holders[p].user
    requires holders[p].challenge.Some? ==> holders[p].spent
    ensures var h := holders[p];
            var born' := if h.challenge.Some? then born[h.challenge.value := key] else born;
            && ChallengesOk(holders[p := h.(challenge := None, spent := false)], marks[key := m], born', keys + {key})
            && BornOk(born', marks[key := m], keys + {key})
            && (h.challenge.Some? ==> h.challenge.value !in born)
  {
  }

  lemma IssueKeepsMarks(reading: map<Proc, Pending>, marks: map<Key, Mark>, epochs: map<User, nat>, t: int, key: Key,
                        m: Mark)
    requires MarksOk(marks, epochs, t) && ReadingOk(reading, marks, t) && key !in marks
    requires m.createdAt <= m.issuedAt == t && m.epoch == EpochIn(epochs, m.user)
    ensures MarksOk(marks[key := m], epochs, t) && ReadingOk(reading, marks[key := m], t)
  {
  }

  lemma HolderUpdateKeepsLocks(holders: map<Proc, Holder>, epochs: map<User, nat>, p: Proc, h: Holder)
    requires LocksOk(holders, epochs) && p in holders && h.user == holders[p].user && h.begin == holders[p].begin
    requires h.revoked == holders[p].revoked
    ensures LocksOk(holders[p := h], epochs)
  {
  }

  /** Nobody else holds the user's lock while its epoch moves on. */
  lemma RevokeAllKeeps(holders: map<Proc, Holder>, marks: map<Key, Mark>, epochs: map<User, nat>, t: int, p: Proc,
                       e: nat)
    requires LocksOk(holders, epochs) && MarksOk(marks, epochs, t) && p in holders
    requires e == EpochIn(epochs, holders[p].user) + 1
    ensures LocksOk(holders[p := holders[p].(revoked := true, session := None)], epochs[holders[p].user := e])
    ensures MarksOk(marks, epochs[holders[p].user := e], t)
  {
  }

  lemma RevokedFlagKeepsChallenges(holders: map<Proc, Holder>, marks: map<Key, Mark>, born: map<Key, Key>,
                                   keys: set<Key>, p: Proc)
    requires ChallengesOk(holders, marks, born, keys) && p in holders
    ensures ChallengesOk(holders[p := holders[p].(revoked := true, session := None)], marks, born, keys)
  {
  }

  lemma SessionKeeps(holders: map<Proc, Holder>, epochs: map<User, nat>, marks: map<Key, Mark>, born: map<Key, Key>,
                     keys: set<Key>, p: Proc, k: Key)
    requires LocksOk(holders, epochs) && ChallengesOk(holders, marks, born, keys) && p in holders
    ensures LocksOk(holders[p := holders[p].(session := Some(k))], epochs)
    ensures ChallengesOk(holders[p := holders[p].(session := Some(k))], marks, born, keys)
  {
  }

  lemma ReadStartKeeps(s: State, p: Proc, key: Key, t: int)
    requires RedisOk(s) && ReadingOk(s.reading, s.marks, t) && s.time <= t && key in s.marks
    requires s.marks[key].kind == SessionKey && Alive(s.redis, key, t)
    ensures ReadingOk(s.reading[p := Pending(key, t, Epoch(s, s.marks[key].user))], s.marks, t)
  {
    assert KeyOk(s.redis, s.marks, s.epochs, s.time, key);
  }

  lemma PresentKeeps(holders: map<Proc, Holder>, marks: map<Key, Mark>, born: map<Key, Key>, keys: set<Key>, p: Proc,
                     key: Key)
    requires ChallengesOk(holders, marks, born, keys) && BornOk(born, marks, keys) && p in holders && key in keys
    requires key in marks
    requires marks[key].user == holders[p].user && marks[key].kind == ChallengeKey
    ensures ChallengesOk(holders[p := holders[p].(challenge := Some(key), spent := false)], marks, born, keys)
  {
  }

  lemma SpendKeeps(holders: map<Proc, Holder>, marks: map<Key, Mark>, born: map<Key, Key>, keys: set<Key>, p: Proc)
    requires ChallengesOk(holders, marks, born, keys) && BornOk(born, marks, keys) && p in holders
    requires holders[p].challenge.Some?
    ensures var keys' := keys - {holders[p].challenge.value};
            ChallengesOk(holders[p := holders[p].(spent := true)], marks, born, keys') && BornOk(born, marks, keys')
  {
  }

  /** What each step of the lock holder writes. */
  lemma LockForm(s: State, p: Proc, user: User, t: int)
    requires Enabled(s, Lock(p, user, t)) && ReadersKnown(s)
    ensures Next(s, Lock(p, user, t)) == s.(time := t,
                                            holders := s.holders[p := Holder(user, Epoch(s, user), t, false, None, None,
                                                                             false)])
  {
  }

  lemma IssueForm(s: State, e: Step)
    requires e.Issue? && Enabled(s, e) && ReadersKnown(s)
    ensures var h := s.holders[e.p];
            var redis := CreateScript(s.redis, e.key, h.user, e.kind, e.now, e.t);
            && redis.keys.Keys == s.redis.keys.Keys + {e.key}
            && Next(s, e) == s.(time := e.t, redis := redis, marks := s.marks[e.key := Issued(s, e)],
                                holders := s.holders[e.p := h.(challenge := None, spent := false)],
                                born := if h.challenge.Some? then s.born[h.challenge.value := e.key] else s.born)
  {
  }

  function Issued(s: State, e: Step): Mark
    requires e.Issue? && e.p in s.holders && (e.kind == ProofKey ==> s.holders[e.p].session.Some?)
  {
    var h := s.holders[e.p];
    Mark(h.user, e.kind, e.now, e.t, Epoch(s, h.user),
         if e.kind == ProofKey then Some(Binding(h.session.value, e.terms)) else None)
  }

  lemma RevokeForm(s: State, p: Proc, t: int)
    requires Enabled(s, RevokeAll(p, t)) && ReadersKnown(s)
    ensures var u := s.holders[p].user; var redis := RevokeUserScript(s.redis, u, t);
            && redis.keys.Keys <= s.redis.keys.Keys
            && Next(s, RevokeAll(p, t)) == s.(time := t, redis := redis, epochs := s.epochs[u := Epoch(s, u) + 1],
                                              holders := s.holders[p := s.holders[p].(revoked := true,
                                                                                      session := None)])
  {
  }

  lemma LockStepKeeps(s: State, p: Proc, user: User, t: int)
    requires KeyInv(s) && Enabled(s, Lock(p, user, t))
    ensures KeyInv(Next(s, Lock(p, user, t)))
  {
    NextKeepsRedis(s, Lock(p, user, t));
    LockForm(s, p, user, t);
    MarksLater(s.marks, s.epochs, s.time, t);
    ReadingLater(s.reading, s.marks, s.time, t);
    LockKeeps(s, p, user, t);
  }

  lemma UnlockStepKeeps(s: State, p: Proc, t: int)
    requires KeyInv(s) && Enabled(s, Unlock(p, t))
    ensures KeyInv(Next(s, Unlock(p, t)))
  {
    NextKeepsRedis(s, Unlock(p, t));
    MarksLater(s.marks, s.epochs, s.time, t);
    ReadingLater(s.reading, s.marks, s.time, t);
    UnlockKeeps(s.holders, s.epochs, s.marks, s.born, s.redis.keys.Keys, p);
  }

  lemma IssueStepKeeps(s: State, e: Step)
    requires KeyInv(s) && Enabled(s, e) && e.Issue?
    ensures KeyInv(Next(s, e))
  {
    NextKeepsRedis(s, e);
    IssueForm(s, e);
    MarksLater(s.marks, s.epochs, s.time, e.t);
    ReadingLater(s.reading, s.marks, s.time, e.t);
    IssueKeepsBorn(s.holders, s.marks, s.born, s.redis.keys.Keys, e.p, e.key, Issued(s, e));
    IssueKeepsMarks(s.reading, s.marks, s.epochs, e.t, e.key, Issued(s, e));
    HolderUpdateKeepsLocks(s.holders, s.epochs, e.p, s.holders[e.p].(challenge := None, spent := false));
  }

  lemma RevokeStepKeeps(s: State, p: Proc, t: int)
    requires KeyInv(s) && Enabled(s, RevokeAll(p, t))
    ensures KeyInv(Next(s, RevokeAll(p, t)))
  {
    NextKeepsRedis(s, RevokeAll(p, t));
    RevokeForm(s, p, t);
    MarksLater(s.marks, s.epochs, s.time, t);
    ReadingLater(s.reading, s.marks, s.time, t);
    RevokeAllKeeps(s.holders, s.marks, s.epochs, t, p, Epoch(s, s.holders[p].user) + 1);
    RevokedFlagKeepsChallenges(s.holders, s.marks, s.born, s.redis.keys.Keys, p);
    FewerKeys(s.holders[p := s.holders[p].(revoked := true, session := None)], s.marks, s.born, s.redis.keys.Keys,
              Next(s, RevokeAll(p, t)).redis.keys.Keys);
  }

  lemma ReadStartStepKeeps(s: State, e: Step)
    requires KeyInv(s) && Enabled(s, e) && e.ReadStart?
    ensures KeyInv(Next(s, e))
  {
    NextKeepsRedis(s, e);
    MarksLater(s.marks, s.epochs, s.time, e.t);
    ReadingLater(s.reading, s.marks, s.time, e.t);
    if Alive(s.redis, e.key, e.t) { ReadStartKeeps(s, e.p, e.key, e.t); }
  }

  lemma DeleteForm(s: State, e: Step)
    requires ReadersKnown(s) && Enabled(s, e) && (e.Logout? || e.Consume?)
    ensures var s' := Next(s, e); s' == s.(time := e.t, redis := s'.redis) && s'.redis.keys.Keys <= s.redis.keys.Keys
  {
  }

  lemma DeleteStepKeeps(s: State, e: Step)
    requires KeyInv(s) && Enabled(s, e) && (e.Logout? || e.Consume?)
    ensures KeyInv(Next(s, e))
  {
    NextKeepsRedis(s, e);
    DeleteForm(s, e);
    MarksLater(s.marks, s.epochs, s.time, e.t);
    ReadingLater(s.reading, s.marks, s.time, e.t);
    FewerKeys(s.holders, s.marks, s.born, s.redis.keys.Keys, Next(s, e).redis.keys.Keys);
  }

  lemma ReadEndForm(s: State, e: Step)
    requires ReadersKnown(s) && Enabled(s, e) && e.ReadEnd?
    ensures var s' := Next(s, e);
            && s'.redis.keys.Keys <= s.redis.keys.Keys && s'.reading == s.reading - {e.p}
            && s' == s.(time := e.t, redis := s'.redis, reading := s'.reading, holders := s'.holders)
            && (s'.holders == s.holders
                || (e.p in s.holders
                    && s'.holders == s.holders[e.p := s.holders[e.p].(session := Some(s.reading[e.p].key))]))
  {
  }

  lemma ReadEndKeeps(s: State, e: Step)
    requires KeyInv(s) && Enabled(s, e) && e.ReadEnd?
    ensures KeyInv(Next(s, e))
  {
    NextKeepsRedis(s, e);
    ReadEndForm(s, e);
    MarksLater(s.marks, s.epochs, s.time, e.t);
    ReadingLater(s.reading, s.marks, s.time, e.t);
    FewerKeys(s.holders, s.marks, s.born, s.redis.keys.Keys, Next(s, e).redis.keys.Keys);
    if e.p in s.holders {
      SessionKeeps(s.holders, s.epochs, s.marks, s.born, Next(s, e).redis.keys.Keys, e.p, s.reading[e.p].key);
    }
  }

  lemma ChallengeStepKeeps(s: State, e: Step)
    requires KeyInv(s) && Enabled(s, e) && (e.Present? || e.Spend?)
    ensures KeyInv(Next(s, e))
  {
    NextKeepsRedis(s, e);
    MarksLater(s.marks, s.epochs, s.time, e.t);
    ReadingLater(s.reading, s.marks, s.time, e.t);
    match e
    case Present(p, key, t) =>
      if Alive(s.redis, key, t) {
        PresentKeeps(s.holders, s.marks, s.born, s.redis.keys.Keys, p, key);
        HolderUpdateKeepsLocks(s.holders, s.epochs, p, s.holders[p].(challenge := Some(key), spent := false));
      }
    case Spend(p, t) =>
      SpendKeeps(s.holders, s.marks, s.born, s.redis.keys.Keys, p);
      HolderUpdateKeepsLocks(s.holders, s.epochs, p, s.holders[p].(spent := true));
      assert Next(s, e).redis.keys.Keys == s.redis.keys.Keys - {s.holders[p].challenge.value};
  }

  lemma NextKeepsKeys(s: State, e: Step)
    requires KeyInv(s) && Enabled(s, e)
    ensures KeyInv(Next(s, e))
  {
    match e
    case Lock(p, user, t) => LockStepKeeps(s, p, user, t);
    case Unlock(p, t) => UnlockStepKeeps(s, p, t);
    case Issue(_, _, _, _, _, _) => IssueStepKeeps(s, e);
    case RevokeAll(p, t) => RevokeStepKeeps(s, p, t);
    case ReadEnd(_, _, _) => ReadEndKeeps(s, e);
    case Present(_, _, _) => ChallengeStepKeeps(s, e);
    case Spend(_, _) => ChallengeStepKeeps(s, e);
    case ReadStart(_, _, _) => ReadStartStepKeeps(s, e);
    case _ => DeleteStepKeeps(s, e);
  }

  // ---------------------------------------------- proofs, reads, challenges

  lemma FlowLock(s: State, p: Proc, user: User, t: int)
    requires FlowInv(s) && Enabled(s, Lock(p, user, t))
    ensures var h := s.holders[p := Holder(user, Epoch(s, user), t, false, None, None, false)];
            && SessionsHeld(h, s.marks, s.epochs) && ReadsLocked(s.reading, h, s.marks, s.epochs)
            && ChallengesCurrent(h, s.marks, s.epochs)
  {
  }

  /** A proof takes the epoch of the session it is bound to, and a session born of a challenge the holder's. */
  lemma FlowIssue(s: State, e: Step)
    requires KeyInv(s) && FlowInv(s) && Enabled(s, e) && e.Issue?
    ensures FlowInv(Next(s, e))
  {
    IssueForm(s, e);
    var h, m := s.holders[e.p], Issued(s, e);
    var holders' := s.holders[e.p := h.(challenge := None, spent := false)];
    FlowIssueHolders(s.holders, s.reading, s.marks, s.epochs, e.p, e.key, m);
    FlowIssueBound(s.holders, s.marks, s.epochs, e.p, e.key, m);
    FlowIssueBorn(s.holders, s.marks, s.epochs, s.born, s.redis.keys.Keys, e.p, e.key, m);
  }

  lemma FlowIssueHolders(holders: map<Proc, Holder>, reading: map<Proc, Pending>, marks: map<Key, Mark>,
                         epochs: map<User, nat>, p: Proc, key: Key, m: Mark)
    requires SessionsHeld(holders, marks, epochs) && ReadsLocked(reading, holders, marks, epochs)
    requires ChallengesCurrent(holders, marks, epochs)
    requires p in holders && key !in marks && (forall q :: q in reading ==> reading[q].key in marks)
    requires forall q :: q in holders && holders[q].challenge.Some? ==> holders[q].challenge.value in marks
    ensures var holders' := holders[p := holders[p].(challenge := None, spent := false)];
            && SessionsHeld(holders', marks[key := m], epochs)
            && ReadsLocked(reading, holders', marks[key := m], epochs)
            && ChallengesCurrent(holders', marks[key := m], epochs)
  {
  }

  lemma FlowIssueBound(holders: map<Proc, Holder>, marks: map<Key, Mark>, epochs: map<User, nat>, p: Proc, key: Key,
                       m: Mark)
    requires SessionsHeld(holders, marks, epochs) && BoundOk(marks) && p in holders && key !in marks
    requires m.user == holders[p].user && m.epoch == EpochIn(epochs, m.user)
    requires m.kind == ProofKey ==> m.bound.Some? && holders[p].session == Some(m.bound.value.session)
    ensures BoundOk(marks[key := m])
  {
  }

  lemma FlowIssueBorn(holders: map<Proc, Holder>, marks: map<Key, Mark>, epochs: map<User, nat>, born: map<Key, Key>,
                      keys: set<Key>, p: Proc, key: Key, m: Mark)
    requires ChallengesCurrent(holders, marks, epochs) && BornCurrent(born, marks) && BornOk(born, marks, keys)
    requires p in holders && key !in marks
    requires holders[p].challenge.Some? ==> holders[p].challenge.value in marks
    requires m.epoch == EpochIn(epochs, holders[p].user)
    ensures BornCurrent(if holders[p].challenge.Some? then born[holders[p].challenge.value := key] else born,
                        marks[key := m])
  {
  }

  /** Nobody else holds, reads for or presents to this user while its epoch moves on. */
  lemma FlowRevoke(holders: map<Proc, Holder>, reading: map<Proc, Pending>, marks: map<Key, Mark>,
                   epochs: map<User, nat>, p: Proc, e: nat)
    requires SessionsHeld(holders, marks, epochs) && ReadsLocked(reading, holders, marks, epochs)
    requires ChallengesCurrent(holders, marks, epochs)
    requires LocksOk(holders, epochs) && p in holders && p !in reading && holders[p].challenge.None?
    ensures var holders', epochs' := holders[p := holders[p].(revoked := true,
                                                              session := None)], epochs[holders[p].user := e];
            && SessionsHeld(holders', marks, epochs') && ReadsLocked(reading, holders', marks, epochs')
            && ChallengesCurrent(holders', marks, epochs')
  {
    var holders', epochs' := holders[p := holders[p].(revoked := true, session := None)], epochs[holders[p].user := e];
    assert forall q :: q in holders' && q != p ==>
      holders'[q].user != holders[p].user && EpochIn(epochs', holders'[q].user) == EpochIn(epochs, holders'[q].user);
  }

  /** An accepted read under the lock was of a session of the current epoch. */
  lemma FlowReadEnd(s: State, p: Proc, now: int, t: int)
    requires KeyInv(s) && FlowInv(s) && Enabled(s, ReadEnd(p, now, t))
    ensures SessionsHeld(Next(s, ReadEnd(p, now, t)).holders, s.marks, s.epochs)
  {
    if ReadAccepted(s, p, now, t) && p in s.holders && s.marks[s.reading[p].key].user == s.holders[p].user {
      RevokedSessionRefused(s, p, now, t);
    }
  }

  lemma FlowPresent(s: State, p: Proc, key: Key, t: int)
    requires KeyInv(s) && FlowInv(s) && Enabled(s, Present(p, key, t)) && Alive(s.redis, key, t)
    ensures ChallengesCurrent(s.holders[p := s.holders[p].(challenge := Some(key), spent := false)], s.marks, s.epochs)
  {
    if Revoked(s, key) { RevokedFlowOnlyLate(s, key, t); }
  }

  /** A change of one holder that keeps its user, its session and what it presents. */
  lemma FlowHolder(holders: map<Proc, Holder>, reading: map<Proc, Pending>, marks: map<Key, Mark>,
                   epochs: map<User, nat>, p: Proc, h: Holder)
    requires SessionsHeld(holders, marks, epochs) && ReadsLocked(reading, holders, marks, epochs) && p in holders
    requires h.user == holders[p].user && h.session == holders[p].session
    ensures SessionsHeld(holders[p := h], marks, epochs) && ReadsLocked(reading, holders[p := h], marks, epochs)
  {
  }

  lemma NextKeepsFlows(s: State, e: Step)
    requires KeyInv(s) && FlowInv(s) && Enabled(s, e)
    ensures FlowInv(Next(s, e))
  {
    match e
    case Lock(p, user, t) =>
      FlowLock(s, p, user, t);
      LockForm(s, p, user, t);
    case Issue(_, _, _, _, _, _) => FlowIssue(s, e);
    case RevokeAll(p, t) =>
      RevokeForm(s, p, t);
      FlowRevoke(s.holders, s.reading, s.marks, s.epochs, p, Epoch(s, s.holders[p].user) + 1);
    case ReadEnd(_, _, _) => ReadStepKeepsFlows(s, e);
    case ReadStart(_, _, _) => ReadStepKeepsFlows(s, e);
    case Present(_, _, _) => ChallengeStepKeepsFlows(s, e);
    case Spend(_, _) => ChallengeStepKeepsFlows(s, e);
    case _ =>
  }

  lemma ReadStepKeepsFlows(s: State, e: Step)
    requires KeyInv(s) && FlowInv(s) && Enabled(s, e) && (e.ReadStart? || e.ReadEnd?)
    ensures FlowInv(Next(s, e))
  {
    if e.ReadEnd? { FlowReadEnd(s, e.p, e.now, e.t); }
  }

  lemma ChallengeStepKeepsFlows(s: State, e: Step)
    requires KeyInv(s) && FlowInv(s) && Enabled(s, e) && (e.Present? || e.Spend?)
    ensures FlowInv(Next(s, e))
  {
    match e
    case Present(p, key, t) =>
      if Alive(s.redis, key, t) {
        FlowPresent(s, p, key, t);
        FlowHolder(s.holders, s.reading, s.marks, s.epochs, p, s.holders[p].(challenge := Some(key), spent := false));
      }
    case Spend(p, t) => FlowHolder(s.holders, s.reading, s.marks, s.epochs, p, s.holders[p].(spent := true));
  }

  lemma NextKeeps(s: State, e: Step)
    requires Inv(s) && Enabled(s, e)
    ensures Inv(Next(s, e))
  {
    NextKeepsKeys(s, e);
    NextKeepsFlows(s, e);
  }

  // ------------------------------------------------------------------ runs

  ghost predicate Runs(s: State, steps: seq<Step>)
    decreases |steps|
  {
    steps == [] || (Enabled(s, steps[0]) && ReadersKnown(s) && Runs(Next(s, steps[0]), steps[1..]))
  }

  predicate ReadersKnown(s: State) { forall p :: p in s.reading ==> s.reading[p].key in s.marks }

  ghost function Run(s: State, steps: seq<Step>): State
    requires Runs(s, steps)
    decreases |steps|
  {
    if steps == [] then s else Run(Next(s, steps[0]), steps[1..])
  }

  /** Issued keys are remembered as they were, epochs only grow, and what bore a session keeps it. */
  ghost predicate Extends(s: State, s': State) {
    && s.time <= s'.time
    && (forall k :: k in s.marks ==> k in s'.marks && s'.marks[k] == s.marks[k])
    && (forall u: User :: Epoch(s, u) <= Epoch(s', u))
    && (forall c :: c in s.born ==> c in s'.born && s'.born[c] == s.born[c])
  }

  lemma NextExtends(s: State, e: Step)
    requires Inv(s) && Enabled(s, e)
    ensures Extends(s, Next(s, e))
  {
    if e.Issue? { IssueExtends(s, e); } else { QuietExtends(s, e); }
  }

  lemma QuietExtends(s: State, e: Step)
    requires ReadersKnown(s) && Enabled(s, e) && !e.Issue?
    ensures Extends(s, Next(s, e))
  {
  }

  lemma IssueExtends(s: State, e: Step)
    requires Inv(s) && Enabled(s, e) && e.Issue?
    ensures Extends(s, Next(s, e))
  {
    IssueKeepsBorn(s.holders, s.marks, s.born, s.redis.keys.Keys, e.p, e.key, Issued(s, e));
    NewKeyExtends(s, e);
  }

  lemma NewKeyExtends(s: State, e: Step)
    requires ReadersKnown(s) && Enabled(s, e) && e.Issue?
    requires s.holders[e.p].challenge.Some? ==> s.holders[e.p].challenge.value !in s.born
    ensures Extends(s, Next(s, e))
  {
    IssueForm(s, e);
  }

  lemma {:induction false} RunKeeps(s: State, steps: seq<Step>)
    requires Inv(s) && Runs(s, steps)
    ensures Inv(Run(s, steps)) && Extends(s, Run(s, steps))
    decreases |steps|
  {
    if steps != [] {
      NextKeeps(s, steps[0]);
      NextExtends(s, steps[0]);
      RunKeeps(Next(s, steps[0]), steps[1..]);
    }
  }

  predicate IsStart(s: State) { s == State(s.time, Redis(map[], map[]), map[], map[], map[], map[], map[]) }

  lemma StartInv(s: State)
    requires IsStart(s)
    ensures Inv(s)
  {
  }

  // ------------------------------------------------------------ revocation

  /** In every reachable state a stored key short of its nominal end is of the current epoch, in its user's index, and
      the index outlives it. */
  lemma IndexCovers(start: State, steps: seq<Step>, k: Key)
    requires IsStart(start) && Runs(start, steps) && k in Run(start, steps).redis.keys
    ensures var s := Run(start, steps);
            && k in s.marks
            && (s.time < Nominal(s.marks[k]) ==>
                  && !Revoked(s, k) && k in Scores(s.redis, s.marks[k].user, s.time)
                  && Nominal(s.marks[k]) <= s.redis.index[s.marks[k].user].deadline)
  {
    StartInv(start);
    RunKeeps(start, steps);
    var s := Run(start, steps);
    assert KeyOk(s.redis, s.marks, s.epochs, s.time, k);
  }

  /** A key issued before its user's latest revocation. */
  predicate Revoked(s: State, k: Key)
    requires k in s.marks
  {
    s.marks[k].epoch < Epoch(s, s.marks[k].user)
  }

  /** No session read that begins after a revocation succeeds with a key from before it, in any run. */
  lemma RevokedSessionRefused(s: State, p: Proc, now: int, t: int)
    requires KeyInv(s) && Enabled(s, ReadEnd(p, now, t))
    ensures ReadAccepted(s, p, now, t) ==> s.reading[p].epoch <= s.marks[s.reading[p].key].epoch
  {
  }

  /** Nor does a signed session reference looked up after it: past the thirty days there is no deadline left to give. */
  lemma RevokedReferenceRefused(s: State, k: Key, later: Redis, now: int, t: int, end: int)
    requires Inv(s) && k in s.marks && s.marks[k].kind == SessionKey && Revoked(s, k) && Alive(s.redis, k, s.time)
    requires s.time <= now <= t <= end
    ensures Reference(s.redis.keys[k], later, k, s.marks[k].user, now, t, end) == None
  {
    assert KeyOk(s.redis, s.marks, s.epochs, s.time, k);
  }

  /** An accepted password proof is never one from before a revocation: it is bound to a session that was read again
      under the lock. */
  lemma AcceptedProofCurrent(s: State, p: Proc, key: Key, terms: string, t: int)
    requires Inv(s) && Enabled(s, Consume(p, key, terms, t))
    ensures ProofAccepted(s, p, key, terms, t) ==> !Revoked(s, key) && s.marks[key].user == s.holders[p].user
  {
  }

  /** The same from the start of any run. */
  lemma RevokedProofRefused(start: State, steps: seq<Step>, p: Proc, key: Key, terms: string, t: int)
    requires IsStart(start) && Runs(start, steps) && Enabled(Run(start, steps), Consume(p, key, terms, t))
    requires Revoked(Run(start, steps), key)
    ensures !ProofAccepted(Run(start, steps), p, key, terms, t)
  {
    StartInv(start);
    RunKeeps(start, steps);
    AcceptedProofCurrent(Run(start, steps), p, key, terms, t);
  }

  /** A revoked challenge that Redis still holds is past its stated expiry, and by less than it took to store it. */
  lemma RevokedFlowOnlyLate(s: State, k: Key, t: int)
    requires KeyInv(s) && s.time <= t && k in s.marks && s.marks[k].kind != SessionKey && Revoked(s, k)
    requires Alive(s.redis, k, t)
    ensures 0 <= s.time - Nominal(s.marks[k]) <= t - Nominal(s.marks[k]) < s.marks[k].issuedAt - s.marks[k].createdAt
  {
    assert KeyOk(s.redis, s.marks, s.epochs, s.time, k);
  }

  lemma RunsCons(s: State, e: Step, rest: seq<Step>)
    requires Enabled(s, e) && ReadersKnown(s) && Runs(Next(s, e), rest)
    ensures Runs(s, [e] + rest) && Run(s, [e] + rest) == Run(Next(s, e), rest)
  {
    assert ([e] + rest)[1..] == rest;
  }

  /** Three steps that may be taken in turn, and where they lead. */
  ghost predicate Leads(s: State, a: Step, b: Step, c: Step, end: State) {
    && ReadersKnown(s) && Enabled(s, a) && ReadersKnown(Next(s, a)) && Enabled(Next(s, a), b)
    && ReadersKnown(Next(Next(s, a), b)) && Enabled(Next(Next(s, a), b), c) && Next(Next(Next(s, a), b), c) == end
  }

  /** Three steps and what follows them. */
  lemma RunsThree(s: State, a: Step, b: Step, c: Step, rest: seq<Step>, end: State)
    requires Leads(s, a, b, c, end) && Runs(end, rest)
    ensures Runs(s, [a, b, c] + rest) && Run(s, [a, b, c] + rest) == Run(end, rest)
  {
    RunsCons(Next(Next(s, a), b), c, rest);
    RunsCons(Next(s, a), b, [c] + rest);
    RunsCons(s, a, [b] + ([c] + rest));
    assert [a] + ([b] + ([c] + rest)) == [a, b, c] + rest;
  }

  const START: State := State(0, Redis(map[], map[]), map[], map[], map[], map[], map[])

  function Stored(delay: int): Step { Issue(0, 1, ChallengeKey, "", 0, delay) }

  function Login(t: int): Step { Issue(0, 2, SessionKey, "", t, t) }

  /** The challenge asked for at 0 and stored `delay` later. */
  function Challenged(delay: int): State {
    State(delay, Redis(map[1 := Entry(7, ChallengeKey, 0, delay + FLOW)],
                       map[7 := Index(map[1 := FLOW], delay + LIFETIME)]),
          map[], map[1 := Mark(7, ChallengeKey, 0, delay, 0, None)], map[], map[], map[])
  }

  lemma ChallengeStored(delay: int, rest: seq<Step>)
    requires delay >= 0 && Runs(Challenged(delay), rest)
    ensures var steps := [Lock(0, 7, 0), Stored(delay), Unlock(0, delay)] + rest;
            Runs(START, steps) && Run(START, steps) == Run(Challenged(delay), rest)
  {
    var s1 := Next(START, Lock(0, 7, 0));
    var s2 := Next(s1, Stored(delay));
    var s3 := Next(s2, Unlock(0, delay));
    assert s3.redis.index[7].scores == map[1 := FLOW];
    assert s3.holders == map[];
    assert s3 == Challenged(delay);
    RunsThree(START, Lock(0, 7, 0), Stored(delay), Unlock(0, delay), rest, Challenged(delay));
  }

  /** Another login at `t`, when the index no longer counts on the challenge though Redis still holds it. */
  function Pruned(delay: int, t: int): State {
    var c := Challenged(delay);
    c.(time := t, redis := Redis(c.redis.keys[2 := Entry(7, SessionKey, t, t + IDLE)],
                                 map[7 := Index(map[2 := t + LIFETIME], t + LIFETIME)]),
       marks := c.marks[2 := Mark(7, SessionKey, t, t, 0, None)])
  }

  lemma LoginPrunes(delay: int, t: int, rest: seq<Step>)
    requires delay >= 0 && FLOW <= t && delay <= t && Runs(Pruned(delay, t), rest)
    ensures var steps := [Lock(0, 7, t), Login(t), Unlock(0, t)] + rest;
            Runs(Challenged(delay), steps) && Run(Challenged(delay), steps) == Run(Pruned(delay, t), rest)
  {
    LoginSteps(delay, t);
    RunsThree(Challenged(delay), Lock(0, 7, t), Login(t), Unlock(0, t), rest, Pruned(delay, t));
  }

  lemma LoginSteps(delay: int, t: int)
    requires delay >= 0 && FLOW <= t && delay <= t
    ensures Leads(Challenged(delay), Lock(0, 7, t), Login(t), Unlock(0, t), Pruned(delay, t))
  {
    var s2 := Next(Next(Challenged(delay), Lock(0, 7, t)), Login(t));
    var s3 := Next(s2, Unlock(0, t));
    assert s3.redis.index[7].scores == map[2 := t + LIFETIME];
    assert s3.redis.index == map[7 := Index(map[2 := t + LIFETIME], t + LIFETIME)];
    assert s3.holders == map[];
  }

  /** Then a revocation, which finds the newer session only. */
  function Missed(delay: int, t: int): State {
    var c := Pruned(delay, t);
    c.(redis := Redis(map[1 := Entry(7, ChallengeKey, 0, delay + FLOW)], map[]), epochs := map[7 := 1])
  }

  lemma RevocationMisses(delay: int, t: int, rest: seq<Step>)
    requires delay >= 0 && FLOW <= t && delay <= t && Runs(Missed(delay, t), rest)
    ensures var steps := [Lock(0, 7, t), RevokeAll(0, t), Unlock(0, t)] + rest;
            Runs(Pruned(delay, t), steps) && Run(Pruned(delay, t), steps) == Run(Missed(delay, t), rest)
  {
    RevocationSteps(delay, t);
    RunsThree(Pruned(delay, t), Lock(0, 7, t), RevokeAll(0, t), Unlock(0, t), rest, Missed(delay, t));
  }

  lemma RevocationSteps(delay: int, t: int)
    requires delay >= 0 && FLOW <= t && delay <= t
    ensures Leads(Pruned(delay, t), Lock(0, 7, t), RevokeAll(0, t), Unlock(0, t), Missed(delay, t))
  {
    var s2 := Next(Next(Pruned(delay, t), Lock(0, 7, t)), RevokeAll(0, t));
    var s3 := Next(s2, Unlock(0, t));
    assert s3.redis.keys == map[1 := Entry(7, ChallengeKey, 0, delay + FLOW)];
    assert s3.redis.index == map[];
    assert s3.holders == map[];
  }

  /** Stored late, pruned by another login, missed by the revocation. */
  lemma LateRun(delay: int, t: int, rest: seq<Step>) returns (steps: seq<Step>)
    requires delay >= 0 && FLOW <= t && delay <= t && Runs(Missed(delay, t), rest)
    ensures Runs(START, steps) && Run(START, steps) == Run(Missed(delay, t), rest)
  {
    var last := [Lock(0, 7, t), RevokeAll(0, t), Unlock(0, t)] + rest;
    RevocationMisses(delay, t, rest);
    LoginPrunes(delay, t, last);
    var more := [Lock(0, 7, t), Login(t), Unlock(0, t)] + last;
    ChallengeStored(delay, more);
    steps := [Lock(0, 7, 0), Stored(delay), Unlock(0, delay)] + more;
  }

  /** A factor challenge stored `delay` after it was asked for, revoked since, and still there to be accepted at the
      given age. */
  ghost predicate Survives(steps: seq<Step>, k: Key, delay: int, age: int) {
    && Runs(START, steps) && k in Run(START, steps).marks
    && var s, m := Run(START, steps), Run(START, steps).marks[k];
       && m.kind == ChallengeKey && m.issuedAt - m.createdAt == delay && s.time <= m.createdAt + age
       && Revoked(s, k) && Alive(s.redis, k, m.createdAt + age)
  }

  /** Exactly when a revoked challenge can still be accepted: after its stated expiry, for as long as its storing was
      late. */
  lemma SurvivesExactly(delay: int, age: int)
    ensures (exists steps, k :: Survives(steps, k, delay, age)) <==> 0 <= delay <= age && FLOW <= age < delay + FLOW
  {
    if 0 <= delay <= age && FLOW <= age < delay + FLOW {
      assert Runs(Missed(delay, age), []);
      var steps := LateRun(delay, age, []);
      assert Survives(steps, 1, delay, age);
    }
    forall steps, k | Survives(steps, k, delay, age) ensures 0 <= delay <= age && FLOW <= age < delay + FLOW {
      StartInv(START);
      RunKeeps(START, steps);
      var s := Run(START, steps);
      RevokedFlowOnlyLate(s, k, s.marks[k].createdAt + age);
    }
  }

  /** A challenge stored with that delay has borne a session of a later epoch than its own. */
  ghost predicate Escapes(steps: seq<Step>, c: Key, delay: int) {
    && Runs(START, steps) && c in Run(START, steps).born && c in Run(START, steps).marks
    && var s := Run(START, steps);
       && s.born[c] in s.marks && s.marks[c].issuedAt - s.marks[c].createdAt == delay
       && s.marks[c].epoch < s.marks[s.born[c]].epoch
  }

  function Factor(t: int): seq<Step> {
    [Lock(0, 7, t), Present(0, 1, t), Spend(0, t)] + [Issue(0, 3, SessionKey, "", t, t)]
  }

  lemma MissedBears(delay: int, t: int)
    requires delay >= 0 && FLOW <= t && delay <= t < delay + FLOW
    ensures Runs(Missed(delay, t), Factor(t))
    ensures var s := Run(Missed(delay, t), Factor(t));
            && 1 in s.born && s.born[1] == 3 && 1 in s.marks && 3 in s.marks
            && s.marks[1] == Mark(7, ChallengeKey, 0, delay, 0, None) && s.marks[3].epoch == 1
  {
    var s := Missed(delay, t);
    var s1 := Next(s, Lock(0, 7, t));
    var s2 := Next(s1, Present(0, 1, t));
    var s3 := Next(s2, Spend(0, t));
    var issue := Issue(0, 3, SessionKey, "", t, t);
    assert s3.holders[0] == Holder(7, 1, t, false, None, Some(1), true);
    assert Enabled(s3, issue);
    assert Runs(Next(s3, issue), []);
    RunsCons(s3, issue, []);
    assert [issue] + [] == [issue];
    RunsThree(s, Lock(0, 7, t), Present(0, 1, t), Spend(0, t), [issue], s3);
  }

  /** In some run a challenge from before a revocation is turned into a session after it if and only if it was stored
      late. */
  lemma EscapesIffLate(delay: int)
    ensures (exists steps, c :: Escapes(steps, c, delay)) <==> delay > 0
  {
    if delay > 0 {
      var t := if delay < FLOW then FLOW else delay;
      MissedBears(delay, t);
      var steps := LateRun(delay, t, Factor(t));
      assert Escapes(steps, 1, delay);
    }
    forall steps, c | Escapes(steps, c, delay) ensures delay > 0 {
      StartInv(START);
      RunKeeps(START, steps);
      assert Late(Run(START, steps).marks[c]);
    }
  }

  // --------------------------------------------------------------- logout

  lemma DeadStays(s: State, e: Step, k: Key)
    requires ReadersKnown(s) && Enabled(s, e) && k in s.marks && k !in s.redis.keys
    ensures k in Next(s, e).marks && k !in Next(s, e).redis.keys
  {
  }

  /** A deleted key never comes back: a renewal under way cannot resurrect what a logout or a revocation removed. */
  lemma {:induction false} DeadForGood(s: State, steps: seq<Step>, k: Key, t: int)
    requires Inv(s) && Runs(s, steps) && k in s.marks && k !in s.redis.keys
    ensures !Alive(Run(s, steps).redis, k, t)
    decreases |steps|
  {
    if steps != [] {
      DeadStays(s, steps[0], k);
      NextKeeps(s, steps[0]);
      DeadForGood(Next(s, steps[0]), steps[1..], k, t);
    }
  }

  /** After a logout its key is refused for ever, whatever else is going on. */
  lemma LogoutIsFinal(s: State, key: Key, t: int, steps: seq<Step>, later: int)
    requires Inv(s) && Enabled(s, Logout(key, t)) && Runs(Next(s, Logout(key, t)), steps)
    ensures !Alive(Run(Next(s, Logout(key, t)), steps).redis, key, later)
  {
    NextKeeps(s, Logout(key, t));
    DeadForGood(Next(s, Logout(key, t)), steps, key, later);
  }

  // ------------------------------------------------- logins and challenges

  /** A key is issued in the epoch its holder checked credentials in, unless that holder has just revoked the others
      itself. */
  lemma NoLoginEscapes(s: State, e: Step)
    requires Inv(s) && Enabled(s, e) && e.Issue?
    ensures s.holders[e.p].revoked || Next(s, e).marks[e.key].epoch == s.holders[e.p].begin
  {
  }

  /** A challenge bears one session at most: at issue it is spent and gone, and it never bore one before. */
  lemma ChallengeBearsOnce(s: State, e: Step)
    requires Inv(s) && Enabled(s, e) && e.Issue? && s.holders[e.p].challenge.Some?
    ensures var c := s.holders[e.p].challenge.value;
            c !in s.born && c in Next(s, e).born && Next(s, e).born[c] == e.key && !Alive(Next(s, e).redis, c, e.t)
  {
  }

  /** And none ever again, whatever follows. */
  lemma SpentForGood(s: State, steps: seq<Step>, c: Key, t: int)
    requires Inv(s) && Runs(s, steps) && c in s.born
    ensures var later := Run(s, steps); c in later.born && later.born[c] == s.born[c] && !Alive(later.redis, c, t)
  {
    RunKeeps(s, steps);
  }
}
