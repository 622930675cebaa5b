/** What a session, a factor challenge and a password proof are good for: exactly when a read, a challenge or a proof is
    answered, over whole runs. */
module SessionLiveness {
  import opened Numbers
  import opened Wrappers
  import opened Sessions
  import opened SessionRuns

  /** An accepted read gives the key what is left of its thirty days, seven days at most, counted from the renewal; a
      read past the thirty days deletes it. No other key moves, and a refused read renews nothing. */
  lemma RenewedExactly(s: State, p: Proc, now: int, t: int)
    requires ReadersKnown(s) && Enabled(s, ReadEnd(p, now, t))
    ensures var k, after := s.reading[p].key, Next(s, ReadEnd(p, now, t)).redis;
            var ends := s.marks[k].createdAt + 30 * 86_400_000;
            && (forall m :: m != k ==> (m in after.keys <==> m in s.redis.keys))
            && (forall m :: m != k && m in s.redis.keys ==> after.keys[m] == s.redis.keys[m])
            && (ReadAccepted(s, p, now, t) ==>
                  && now < ends && after.index == s.redis.index && k in s.redis.keys && k in after.keys
                  && after.keys[k].deadline == t + (if ends - now < 7 * 86_400_000 then ends - now else 7 * 86_400_000)
                  && after.keys[k] == s.redis.keys[k].(deadline := after.keys[k].deadline))
            && (now >= ends ==> k !in after.keys && !ReadAccepted(s, p, now, t))
            && (!ReadAccepted(s, p, now, t) && now < ends ==> after == s.redis)
  {
  }

  /** Storing a key leaves every other key and every other user's index alone, and drops from this user's index what the
      caller's clock has passed. */
  lemma CreatedExactly(r: Redis, k: Key, u: User, kind: Kind, now: int, t: int)
    ensures var r' := CreateScript(r, k, u, kind, now, t);
            && (forall m, at: int :: m != k ==> (Alive(r', m, at) <==> Alive(r, m, at)))
            && (forall at: int ::
                  Alive(r', k, at) <==> at < t + (if kind == SessionKey then 7 * 86_400_000 else 5 * 60_000))
            && (forall v: User :: v != u ==> Scores(r', v, t) == Scores(r, v, t))
            && k in Scores(r', u, t)
            && (forall m :: m != k ==>
                  (m in Scores(r', u, t) <==> (m in Scores(r, u, t) && now < Scores(r, u, t)[m])))
  {
  }

  // -------------------------------------------------------------- sessions

  /** Neither a logout of this session nor a revocation of its user's. */
  predicate Spares(s: State, e: Step, k: Key)
    requires Enabled(s, e) && k in s.marks
  {
    (e.Logout? ==> e.key != k) && (e.RevokeAll? ==> s.holders[e.p].user != s.marks[k].user)
  }

  /** The end of an accepted read of this session. */
  predicate Renews(s: State, e: Step, k: Key)
    requires Enabled(s, e) && ReadersKnown(s)
  {
    e.ReadEnd? && s.reading[e.p].key == k && ReadAccepted(s, e.p, e.now, e.t)
  }

  /** Until its thirty days end a read of the session is answered exactly when it comes less than seven days after
      `last`, both where it looks the key up and where it renews it. */
  predicate AnsweredInTime(s: State, e: Step, k: Key, last: int)
    requires Enabled(s, e) && ReadersKnown(s) && k in s.marks
  {
    e.t < s.marks[k].createdAt + 30 * 86_400_000 ==>
      && (e.ReadStart? && e.key == k ==> (e.p in Next(s, e).reading <==> e.t < last + 7 * 86_400_000))
      && (e.ReadEnd? && s.reading[e.p].key == k ==> (ReadAccepted(s, e.p, e.now, e.t) <==> e.t < last + 7 * 86_400_000))
  }

  /** A run that spares the session. */
  ghost predicate Undisturbed(s: State, steps: seq<Step>, k: Key)
    requires Runs(s, steps)
    decreases |steps|
  {
    steps != [] ==> k in s.marks && Spares(s, steps[0], k) && Undisturbed(Next(s, steps[0]), steps[1..], k)
  }

  /** Every read along the run is answered in time, counted from the accepted read before it. */
  ghost predicate AlwaysAnswered(s: State, steps: seq<Step>, k: Key, last: int)
    requires Runs(s, steps)
    decreases |steps|
  {
    steps != [] ==>
      && k in s.marks && AnsweredInTime(s, steps[0], k, last)
      && AlwaysAnswered(Next(s, steps[0]), steps[1..], k, if Renews(s, steps[0], k) then steps[0].t else last)
  }

  /** Redis holds the key for seven days from `last`, or to the end of its thirty days. */
  predicate Held(redis: Redis, marks: map<Key, Mark>, time: int, k: Key, last: int) {
    && k in marks && marks[k].kind == SessionKey
    && (k in redis.keys ==> redis.keys[k].deadline <= last + IDLE)
    && (time < marks[k].createdAt + LIFETIME && time < last + IDLE ==>
          && k in redis.keys
          && (redis.keys[k].deadline >= last + IDLE || redis.keys[k].deadline >= marks[k].createdAt + LIFETIME))
  }

  lemma HeldAnswers(s: State, e: Step, k: Key, last: int)
    requires ReadersKnown(s) && Enabled(s, e) && Held(s.redis, s.marks, s.time, k, last)
    ensures AnsweredInTime(s, e, k, last)
  {
  }

  /** The steps that may touch a stored key. */
  predicate Concerns(s: State, e: Step, k: Key)
    requires Enabled(s, e) && ReadersKnown(s) && k in s.marks
  {
    || (e.Logout? && e.key == k) || (e.RevokeAll? && s.holders[e.p].user == s.marks[k].user)
    || (e.ReadEnd? && s.reading[e.p].key == k) || (e.Spend? && s.holders[e.p].challenge == Some(k))
    || (e.Consume? && e.key == k && ProofAccepted(s, e.p, k, e.terms, e.t))
  }

  /** Every other step, a revocation of another user's keys among them, leaves it as it is. */
  lemma OthersLeave(s: State, e: Step, k: Key)
    requires ScoresOk(s.redis, s.marks) && ReadersKnown(s) && Enabled(s, e) && k in s.marks && !Concerns(s, e, k)
    ensures var keys, keys' := s.redis.keys, Next(s, e).redis.keys;
            (k in keys' <==> k in keys) && (k in keys ==> keys'[k] == keys[k])
  {
  }

  lemma RenewedHeld(s: State, e: Step, k: Key, last: int)
    requires ReadersKnown(s) && Enabled(s, e) && Held(s.redis, s.marks, s.time, k, last)
    requires e.ReadEnd? && s.reading[e.p].key == k
    ensures var s' := Next(s, e); Held(s'.redis, s'.marks, s'.time, k, if Renews(s, e, k) then e.t else last)
  {
    RenewedExactly(s, e.p, e.now, e.t);
  }

  lemma HeldOn(s: State, e: Step, k: Key, last: int)
    requires Inv(s) && Enabled(s, e) && Held(s.redis, s.marks, s.time, k, last) && Spares(s, e, k)
    ensures var s' := Next(s, e); Held(s'.redis, s'.marks, s'.time, k, if Renews(s, e, k) then e.t else last)
  {
    if e.ReadEnd? && s.reading[e.p].key == k {
      RenewedHeld(s, e, k, last);
    } else {
      OthersHeld(s, e, k, last);
    }
  }

  lemma OthersHeld(s: State, e: Step, k: Key, last: int)
    requires Inv(s) && Enabled(s, e) && Held(s.redis, s.marks, s.time, k, last) && Spares(s, e, k)
    requires !(e.ReadEnd? && s.reading[e.p].key == k)
    ensures var s' := Next(s, e); Held(s'.redis, s'.marks, s'.time, k, last)
  {
    NextExtends(s, e);
    OthersLeave(s, e, k);
  }

  /** Over any run, whatever else goes on in it: a session neither logged out nor revoked is answered at every read less
      than seven days after its last accepted one, and at no other, until its thirty days end. */
  lemma {:induction false} HeldIsAnswered(s: State, steps: seq<Step>, k: Key, last: int)
    requires Inv(s) && Runs(s, steps) && Held(s.redis, s.marks, s.time, k, last) && Undisturbed(s, steps, k)
    ensures AlwaysAnswered(s, steps, k, last)
    decreases |steps|
  {
    if steps != [] {
      HeldAnswers(s, steps[0], k, last);
      HeldOn(s, steps[0], k, last);
      NextKeeps(s, steps[0]);
      HeldIsAnswered(Next(s, steps[0]), steps[1..], k, if Renews(s, steps[0], k) then steps[0].t else last);
    }
  }

  lemma IssuedHeld(s: State, e: Step)
    requires Inv(s) && Enabled(s, e) && e.Issue?
    ensures var s', t := Next(s, e), e.t;
            && Inv(s')
            && (if e.kind == SessionKey then Held(s'.redis, s'.marks, s'.time, e.key, t)
                else Fresh(s', e.key) && s'.marks[e.key].issuedAt == t)
  {
    NextKeeps(s, e);
    IssueForm(s, e);
  }

  /** Leads from an empty store to `s`. */
  ghost predicate Reaches(start: State, steps: seq<Step>, s: State) {
    IsStart(start) && Runs(start, steps) && Run(start, steps) == s
  }

  lemma ReachedInv(start: State, steps: seq<Step>, s: State)
    requires Reaches(start, steps, s)
    ensures Inv(s) && ReadersKnown(s)
  {
    StartInv(start);
    RunKeeps(start, steps);
  }

  /** The same from the moment the session is issued, in any reachable state. */
  lemma InUseStaysIn(start: State, before: seq<Step>, s: State, issue: Step, after: seq<Step>)
    requires Reaches(start, before, s) && ReadersKnown(s)
    requires Enabled(s, issue) && issue.Issue? && issue.kind == SessionKey
    requires Runs(Next(s, issue), after) && Undisturbed(Next(s, issue), after, issue.key)
    ensures AlwaysAnswered(Next(s, issue), after, issue.key, issue.t)
  {
    ReachedInv(start, before, s);
    IssuedHeld(s, issue);
    HeldIsAnswered(Next(s, issue), after, issue.key, issue.t);
  }

  // -------------------------------------------------- challenges and proofs

  /** Neither a revocation of its user's keys, nor its deletion on use. */
  predicate Unused(s: State, e: Step, k: Key)
    requires Enabled(s, e) && ReadersKnown(s) && k in s.marks
  {
    && (e.RevokeAll? ==> s.holders[e.p].user != s.marks[k].user)
    && (e.Spend? ==> s.holders[e.p].challenge != Some(k))
    && (e.Consume? && e.key == k ==> !ProofAccepted(s, e.p, k, e.terms, e.t))
  }

  ghost predicate UnusedAlong(s: State, steps: seq<Step>, k: Key)
    requires Runs(s, steps)
    decreases |steps|
  {
    steps != [] ==> k in s.marks && Unused(s, steps[0], k) && UnusedAlong(Next(s, steps[0]), steps[1..], k)
  }

  /** Redis holds it from when it was stored, for five minutes. */
  predicate Fresh(s: State, k: Key) {
    && k in s.marks && s.marks[k].kind != SessionKey
    && k in s.redis.keys && s.redis.keys[k].deadline == s.marks[k].issuedAt + FLOW
  }

  /** From the state after `issue` to `s'`, the issued key neither used nor revoked on the way. */
  ghost predicate StaysUnused(s: State, issue: Step, steps: seq<Step>, s': State)
    requires ReadersKnown(s) && Enabled(s, issue) && issue.Issue?
  {
    Runs(Next(s, issue), steps) && UnusedAlong(Next(s, issue), steps, issue.key) && s' == Run(Next(s, issue), steps)
  }

  lemma {:induction false} FreshAlong(s: State, steps: seq<Step>, k: Key)
    requires Inv(s) && Runs(s, steps) && Fresh(s, k) && UnusedAlong(s, steps, k)
    ensures Inv(Run(s, steps)) && Fresh(Run(s, steps), k) && Run(s, steps).marks[k] == s.marks[k]
    decreases |steps|
  {
    if steps != [] {
      OthersLeave(s, steps[0], k);
      NextExtends(s, steps[0]);
      NextKeeps(s, steps[0]);
      FreshAlong(Next(s, steps[0]), steps[1..], k);
    }
  }

  /** The presented challenge becomes the one to be answered under the lock. */
  predicate TakesUp(s: State, use: Step)
    requires ReadersKnown(s) && Enabled(s, use) && use.Present?
  {
    Next(s, use).holders[use.p].challenge == Some(use.key)
  }

  lemma FreshIsGood(s: State, k: Key, use: Step)
    requires Inv(s) && Enabled(s, use) && Fresh(s, k)
    ensures use.Present? && use.key == k ==> (TakesUp(s, use) <==> use.t < s.marks[k].issuedAt + FLOW)
    ensures use.Consume? && use.key == k ==>
              (ProofAccepted(s, use.p, k, use.terms, use.t) <==>
                 && use.t < s.marks[k].issuedAt + FLOW
                 && s.marks[k].bound == Some(Binding(s.holders[use.p].session.value, use.terms)))
  {
  }

  /** A challenge issued at `issue.t` and neither spent nor revoked since is taken up in the five minutes from then, and
      not later. */
  lemma ChallengeGoodForFiveMinutes(start: State, before: seq<Step>, s: State, issue: Step, after: seq<Step>,
                                    s': State, use: Step)
    requires Reaches(start, before, s) && ReadersKnown(s)
    requires Enabled(s, issue) && issue.Issue? && issue.kind == ChallengeKey
    requires StaysUnused(s, issue, after, s') && ReadersKnown(s')
    requires Enabled(s', use) && use.Present? && use.key == issue.key
    ensures TakesUp(s', use) <==> use.t < issue.t + 5 * 60_000
  {
    ReachedInv(start, before, s);
    IssuedHeld(s, issue);
    FreshAlong(Next(s, issue), after, issue.key);
    FreshIsGood(s', issue.key, use);
  }

  /** A proof issued at `issue.t` and neither used nor revoked since is accepted in the five minutes from then, for the
      session that asked for it and its terms, and in no other case. */
  lemma ProofGoodForFiveMinutes(start: State, before: seq<Step>, s: State, issue: Step, after: seq<Step>, s': State,
                                use: Step)
    requires Reaches(start, before, s) && ReadersKnown(s)
    requires Enabled(s, issue) && issue.Issue? && issue.kind == ProofKey
    requires StaysUnused(s, issue, after, s')
    requires Enabled(s', use) && use.Consume? && use.key == issue.key
    ensures ProofAccepted(s', use.p, use.key, use.terms, use.t) <==>
              && use.t < issue.t + 5 * 60_000 && use.terms == issue.terms
              && s'.holders[use.p].session == s.holders[issue.p].session
  {
    ReachedInv(start, before, s);
    IssuedHeld(s, issue);
    IssueForm(s, issue);
    FreshAlong(Next(s, issue), after, issue.key);
    FreshIsGood(s', issue.key, use);
  }

  /** An accepted proof is gone: it is refused in everything that follows. */
  lemma ProofSpentForGood(s: State, use: Step, steps: seq<Step>, p: Proc, terms: string, t: int)
    requires Inv(s) && Enabled(s, use) && use.Consume? && ProofAccepted(s, use.p, use.key, use.terms, use.t)
    requires Runs(Next(s, use), steps) && Enabled(Run(Next(s, use), steps), Consume(p, use.key, terms, t))
    ensures !ProofAccepted(Run(Next(s, use), steps), p, use.key, terms, t)
  {
    NextKeeps(s, use);
    DeadForGood(Next(s, use), steps, use.key, t);
  }
}
