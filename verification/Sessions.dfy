/** Sessions, factor challenges and password proofs in Redis, with the per-user index and the user's row lock:
    internal/identity/sessions.go, login.go and account.go. Times are in milliseconds. */
module Sessions {
  import opened Numbers
  import opened Wrappers

  type Key = nat
  type User = nat
  type Proc = nat

  const IDLE: int := 7 * 24 * 3_600_000
  const LIFETIME: int := 30 * 24 * 3_600_000
  const FLOW: int := 5 * 60_000

  datatype Kind = SessionKey | ChallengeKey | ProofKey

  /** How long Redis first keeps a key, and how long the index counts on it. */
  function Ttl(kind: Kind): int { if kind == SessionKey then IDLE else FLOW }
  function Life(kind: Kind): int { if kind == SessionKey then LIFETIME else FLOW }

  datatype Entry = Entry(user: User, kind: Kind, createdAt: int, deadline: int)
  datatype Index = Index(scores: map<Key, int>, deadline: int)
  datatype Redis = Redis(keys: map<Key, Entry>, index: map<User, Index>)

  predicate Alive(r: Redis, k: Key, t: int) { k in r.keys && t < r.keys[k].deadline }

  function Scores(r: Redis, u: User, t: int): map<Key, int> {
    if u in r.index && t < r.index[u].deadline then r.index[u].scores else map[]
  }

  // --------------------------------------------------------------- scripts

  /** Runs at `t` with a clock reading `now` taken by the caller before: the score counts from `now`, the expiry from
      `t`. */
  function CreateScript(r: Redis, k: Key, u: User, kind: Kind, now: int, t: int): Redis {
    var scores := Scores(r, u, t);
    var kept := map m | m in scores && scores[m] > now :: scores[m];
    Redis(r.keys[k := Entry(u, kind, now, t + Ttl(kind))],
          r.index[u := Index(kept[k := now + Life(kind)], t + LIFETIME)])
  }

  function RevokeScript(r: Redis, k: Key, u: User, t: int): Redis {
    Redis(r.keys - {k}, if u in r.index then r.index[u := r.index[u].(scores := r.index[u].scores - {k})] else r.index)
  }

  function RevokeUserScript(r: Redis, u: User, t: int): Redis {
    Redis(r.keys - Scores(r, u, t).Keys, r.index - {u})
  }

  /** Renews only a key that still exists. */
  function RenewScript(r: Redis, k: Key, ttl: int, t: int): Redis {
    if Alive(r, k, t) then r.(keys := r.keys[k := r.keys[k].(deadline := t + ttl)]) else r
  }

  /** A proof is spent by deleting its key; its index entry stays behind. */
  function ConsumeScript(r: Redis, k: Key): Redis { r.(keys := r.keys - {k}) }

  // ------------------------------------------------------------------ runs

  /** What a password proof is bound to: the browser's session, and the Discord account with the purpose. */
  datatype Binding = Binding(session: Key, terms: string)

  /** What is remembered of an issued key: when it was asked for, when it was stored, in which epoch of its user, and,
      for a proof, its binding. */
  datatype Mark = Mark(user: User, kind: Kind, createdAt: int, issuedAt: int, epoch: nat, bound: Option<Binding>)

  /** The holder of a user's row lock. `begin` is the user's epoch when the row was read and credentials were checked;
      `session` is the browser session that was read again, and accepted, under this lock. */
  datatype Holder = Holder(user: User, begin: nat, since: int, revoked: bool, session: Option<Key>,
                           challenge: Option<Key>, spent: bool)

  /** A read between its GET and its renewal. */
  datatype Pending = Pending(key: Key, startedAt: int, epoch: nat)

  /** A user's epoch counts its revocations. `born` maps a spent challenge to the session issued for it. */
  datatype State = State(time: int, redis: Redis, epochs: map<User, nat>, marks: map<Key, Mark>,
                         holders: map<Proc, Holder>, reading: map<Proc, Pending>, born: map<Key, Key>)

  /** The deadline a signed reference to a session gets: the key as read first, its remaining time as read at `t` by a
      caller whose clock stood at `now`, and a last look at the clock at `end`. */
  function Reference(got: Entry, r: Redis, k: Key, u: User, now: int, t: int, end: int): Option<int> {
    if !Alive(r, k, t) || got.user != u then None
    else
      var deadline := Min(now + (r.keys[k].deadline - t), got.createdAt + LIFETIME);
      if deadline <= end then None else Some(deadline)
  }

  function Epoch(s: State, u: User): nat { if u in s.epochs then s.epochs[u] else 0 }

  datatype Step =
    | Lock(p: Proc, user: User, t: int)
    | Unlock(p: Proc, t: int)
    | Issue(p: Proc, key: Key, kind: Kind, terms: string, now: int, t: int)
    | RevokeAll(p: Proc, t: int)
    | Logout(key: Key, t: int)
    | ReadStart(p: Proc, key: Key, t: int)
    | ReadEnd(p: Proc, now: int, t: int)
    | Present(p: Proc, key: Key, t: int)
    | Spend(p: Proc, t: int)
    | Consume(p: Proc, key: Key, terms: string, t: int)

  /** The goroutine of a step, for the steps a goroutine takes outside a read. */
  function Actor(e: Step): Option<Proc> {
    match e
    case Logout(_, _) => None
    case ReadEnd(_, _, _) => None
    case _ => Some(e.p)
  }

  /** The order the code imposes: a read finished before anything else, the row lock first, the browser's session read
      again before a proof is made or spent, a challenge deleted before its session is created, clock readings taken in
      order. */
  predicate Enabled(s: State, e: Step) {
    && s.time <= e.t && (Actor(e).Some? ==> Actor(e).value !in s.reading)
    && match e
       case Lock(p, user, t) => p !in s.holders && forall q :: q in s.holders ==> s.holders[q].user != user
       case Unlock(p, t) => p in s.holders
       case Issue(p, key, kind, terms, now, t) =>
         && p in s.holders && key !in s.marks && s.holders[p].since <= now <= t
         && (s.holders[p].challenge.Some? ==> s.holders[p].spent && kind == SessionKey)
         && (kind == ProofKey ==> s.holders[p].session.Some?)
       case RevokeAll(p, t) => p in s.holders && s.holders[p].challenge.None?
       case Logout(key, t) => key in s.marks && s.marks[key].kind == SessionKey
       case ReadStart(p, key, t) => key in s.marks && s.marks[key].kind == SessionKey
       case ReadEnd(p, now, t) => p in s.reading && s.reading[p].startedAt <= now <= t
       case Present(p, key, t) =>
         && p in s.holders && s.holders[p].challenge.None? && key in s.marks && s.marks[key].kind == ChallengeKey
         && s.holders[p].user == s.marks[key].user
       case Spend(p, t) => p in s.holders && s.holders[p].challenge.Some?
       case Consume(p, key, terms, t) =>
         p in s.holders && s.holders[p].session.Some? && key in s.marks && s.marks[key].kind == ProofKey
  }

  function Remaining(m: Mark, now: int): int { m.createdAt + LIFETIME - now }

  /** A session read succeeds when its thirty days are not over and the key is still there to renew. */
  predicate ReadAccepted(s: State, p: Proc, now: int, t: int)
    requires p in s.reading && s.reading[p].key in s.marks
  {
    Remaining(s.marks[s.reading[p].key], now) > 0 && Alive(s.redis, s.reading[p].key, t)
  }

  /** A proof is accepted when its key is there and holds exactly the binding asked for. */
  predicate ProofAccepted(s: State, p: Proc, key: Key, terms: string, t: int)
    requires p in s.holders && s.holders[p].session.Some? && key in s.marks
  {
    Alive(s.redis, key, t) && s.marks[key].bound == Some(Binding(s.holders[p].session.value, terms))
  }

  function Next(s0: State, e: Step): State
    requires Enabled(s0, e) && forall p :: p in s0.reading ==> s0.reading[p].key in s0.marks
  {
    var s := s0.(time := e.t);
    match e
    case Lock(p, user, t) => s.(holders := s.holders[p := Holder(user, Epoch(s, user), t, false, None, None, false)])
    case Unlock(p, t) => s.(holders := s.holders - {p})
    case Issue(p, key, kind, terms, now, t) =>
      var h := s.holders[p];
      var bound := if kind == ProofKey then Some(Binding(h.session.value, terms)) else None;
      s.(redis := CreateScript(s.redis, key, h.user, kind, now, t),
         marks := s.marks[key := Mark(h.user, kind, now, t, Epoch(s, h.user), bound)],
         holders := s.holders[p := h.(challenge := None, spent := false)],
         born := if h.challenge.Some? then s.born[h.challenge.value := key] else s.born)
    case RevokeAll(p, t) =>
      var u := s.holders[p].user;
      s.(redis := RevokeUserScript(s.redis, u, t), epochs := s.epochs[u := Epoch(s, u) + 1],
         holders := s.holders[p := s.holders[p].(revoked := true, session := None)])
    case Logout(key, t) => s.(redis := RevokeScript(s.redis, key, s.marks[key].user, t))
    case ReadStart(p, key, t) =>
      if Alive(s.redis, key, t) then s.(reading := s.reading[p := Pending(key, t, Epoch(s, s.marks[key].user))]) else s
    case ReadEnd(p, now, t) =>
      var k := s.reading[p].key;
      var left := Remaining(s.marks[k], now);
      s.(reading := s.reading - {p},
         holders := if ReadAccepted(s, p, now, t) && p in s.holders && s.marks[k].user == s.holders[p].user
                    then s.holders[p := s.holders[p].(session := Some(k))] else s.holders,
         redis := if left <= 0 then RevokeScript(s.redis, k, s.marks[k].user, t)
                  else RenewScript(s.redis, k, Min(left, IDLE), t))
    case Present(p, key, t) =>
      if Alive(s.redis, key, t)
        then s.(holders := s.holders[p := s.holders[p].(challenge := Some(key), spent := false)]) else s
    case Spend(p, t) =>
      var h := s.holders[p];
      s.(redis := RevokeScript(s.redis, h.challenge.value, h.user, t), holders := s.holders[p := h.(spent := true)])
    case Consume(p, key, terms, t) =>
      if ProofAccepted(s, p, key, terms, t) then s.(redis := ConsumeScript(s.redis, key)) else s
  }
}
