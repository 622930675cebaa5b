/** What a registration, an ingested page and an attempt at a grant leave behind, told from the request and the rows
    before and after; and that no claim is ever forgotten. */
module AdmissionEffects {
  import opened Numbers
  import opened Wrappers
  import opened Admission
  import opened AdmissionRuns
  import opened AdmissionStore

  // ---------------------------------------------------------- registration

  /** The account and its receipt, the next in order; nothing else moves. */
  ghost predicate Joins(s: State, s': State, subject: string, policy: string, user: User, operation: string, now: int) {
    && user !in s.users && s'.users.Keys == s.users.Keys + {user} && Within(s.users, s'.users)
    && s'.users[user].subject == Some(subject) && s'.users[user].active
    && s'.counter == s.counter + 1 && s'.receipts.Keys == s.receipts.Keys + {s'.counter}
    && Within(s.receipts, s'.receipts)
    && s'.receipts[s'.counter] == Receipt(s'.counter, operation, user, subject, "NEW_DISCORD_REGISTRATION", policy, now)
    && s' == s.(users := s'.users, counter := s'.counter, receipts := s'.receipts)
  }

  /** No stored receipt bears this operation, user or subject. */
  ghost predicate Unclaimed(s: State, operation: string, user: User, subject: string) {
    forall o :: o in s.receipts ==>
      s.receipts[o].operation != operation && s.receipts[o].user != user && s.receipts[o].subject != subject
  }

  /** A subject that has an account is answered with it if and only if it is active, and nothing is written; one without
      gets a new account if and only if the values can be stored. */
  lemma RegisteredExactly(s: State, subject: string, policy: string, newUser: User, operation: string, now: int)
    requires SourceOk(s)
    ensures var r := Register(s, subject, policy, newUser, operation, now);
            && (forall u :: u in s.users && s.users[u].subject == Some(subject) ==>
                  r == if s.users[u].active then Ok((s, u)) else Err(Credentials))
            && ((forall u :: u in s.users ==> s.users[u].subject != Some(subject)) ==>
                  && (r.Ok? <==>
                        && subject != "" && policy != "" && newUser > 0 && newUser !in s.users
                        && Unclaimed(s, operation, newUser, subject) && s.counter != MAX_INT64)
                  && (r.Ok? ==> r.value.1 == newUser && Joins(s, r.value.0, subject, policy, newUser, operation, now)))
  {
    forall u | u in s.users && s.users[u].subject == Some(subject)
      ensures Register(s, subject, policy, newUser, operation, now)
           == if s.users[u].active then Ok((s, u)) else Err(Credentials)
    {
      assert Holds(s, u, subject);
      assert forall v :: Holds(s, v, subject) ==> v == u;
    }
    assert ReceiptClash(s, operation, newUser, subject) <==> !Unclaimed(s, operation, newUser, subject);
  }

  /** The same subject again, in any later state: while its account is linked and active it is answered with that
      account, and not given a second one. */
  lemma RegisteredAgain(s: State, r1: Result<(State, User), Error>, steps: seq<Step>, subject: string, policy: string,
                        newUser: User, operation: string, now: int)
    requires Inv(s) && r1.Ok? && r1 == Register(s, subject, policy, newUser, operation, now)
    requires Runs(r1.value.0, steps)
    requires var later, u := Run(r1.value.0, steps), r1.value.1; Holds(later, u, subject) && later.users[u].active
    ensures var later := Run(r1.value.0, steps);
            forall policy', user', operation', now' ::
              Register(later, subject, policy', user', operation', now') == Ok((later, r1.value.1))
  {
    RegisterKeeps(s, subject, policy, newUser, operation, now);
    RunKeeps(r1.value.0, steps);
    var later := Run(r1.value.0, steps);
    forall policy', user', operation', now'
      ensures Register(later, subject, policy', user', operation', now') == Ok((later, r1.value.1))
    {
      RegisteredExactly(later, subject, policy', user', operation', now');
    }
  }

  // ---------------------------------------------------------------- ingest

  /** Old claims, and all money, stay as they were. */
  ghost predicate OnlyAdds(s: State, s': State) {
    && Within(s.inbox, s'.inbox) && Within(s.grants, s'.grants) && Within(s.jobs, s'.jobs)
    && s' == s.(inbox := s'.inbox, grants := s'.grants, jobs := s'.jobs, cursor := s'.cursor)
  }

  /** A row that is stored with its claim, which waits for its first attempt. */
  ghost predicate Brought(s: State, r: Receipt, claim: Id, now: int) {
    && r.ordinal in s.inbox && s.inbox[r.ordinal] == r
    && claim in s.grants && s.grants[claim] == Grant(r.user, r.ordinal, Waiting)
    && claim in s.jobs && s.jobs[claim].attempts == 0 && Due(s, claim, now)
  }

  ghost predicate BroughtAll(s: State, s': State, receipts: seq<Receipt>, claims: seq<Id>, now: int)
    requires |claims| == |receipts|
  {
    && (forall i :: 0 <= i < |receipts| && s.cursor < receipts[i].ordinal ==> Brought(s', receipts[i], claims[i], now))
    && (forall c :: c in s'.grants && c !in s.grants ==>
          exists i :: 0 <= i < |receipts| && s.cursor < receipts[i].ordinal && claims[i] == c)
  }

  lemma RowBrings(s: State, r: Receipt, claim: Id, now: int)
    requires IngestOne(s, r, claim, now).Ok?
    ensures var s' := IngestOne(s, r, claim, now).value;
            && OnlyAdds(s, s') && s'.cursor == Max(s.cursor, r.ordinal)
            && (if s.cursor < r.ordinal then s'.grants.Keys == s.grants.Keys + {claim} && Brought(s', r, claim, now)
                else s' == s)
  {
    if s.cursor < r.ordinal { IngestOneForm(s, r, claim, now); }
  }

  ghost predicate Ascending(receipts: seq<Receipt>) {
    forall i, j :: 0 <= i < j < |receipts| ==> receipts[i].ordinal < receipts[j].ordinal
  }

  lemma AscendingRest(receipts: seq<Receipt>)
    requires Ascending(receipts) && receipts != []
    ensures Ascending(receipts[1..])
  {
  }

  lemma OnlyAddsTwice(a: State, b: State, c: State)
    requires OnlyAdds(a, b) && OnlyAdds(b, c)
    ensures OnlyAdds(a, c)
  {
  }

  lemma BringsOn(s: State, next: State, s': State, receipts: seq<Receipt>, claims: seq<Id>, now: int)
    requires |claims| == |receipts| > 0 && OnlyAdds(next, s') && next.cursor == Max(s.cursor, receipts[0].ordinal)
    requires BroughtAll(next, s', receipts[1..], claims[1..], now)
    requires Ascending(receipts)
    requires if s.cursor < receipts[0].ordinal
             then next.grants.Keys == s.grants.Keys + {claims[0]} && Brought(next, receipts[0], claims[0], now)
             else next == s
    ensures BroughtAll(s, s', receipts, claims, now)
  {
    forall i | 0 <= i < |receipts| && s.cursor < receipts[i].ordinal ensures Brought(s', receipts[i], claims[i], now) {
      if i > 0 { assert receipts[1..][i - 1] == receipts[i] && claims[1..][i - 1] == claims[i]; }
    }
    forall c | c in s'.grants && c !in s.grants
      ensures exists i :: 0 <= i < |receipts| && s.cursor < receipts[i].ordinal && claims[i] == c
    {
      if c in next.grants {
        assert claims[0] == c;
      } else {
        var j :| 0 <= j < |receipts[1..]| && next.cursor < receipts[1..][j].ordinal && claims[1..][j] == c;
        assert receipts[j + 1] == receipts[1..][j] && claims[j + 1] == c;
      }
    }
  }

  lemma {:induction false} RowsBring(s: State, receipts: seq<Receipt>, claims: seq<Id>, now: int)
    requires |claims| == |receipts| && IngestAll(s, receipts, claims, now).Ok?
    requires Ascending(receipts)
    ensures var s' := IngestAll(s, receipts, claims, now).value;
            OnlyAdds(s, s') && BroughtAll(s, s', receipts, claims, now)
    decreases |receipts|
  {
    if receipts != [] {
      var next := IngestOne(s, receipts[0], claims[0], now).value;
      RowBrings(s, receipts[0], claims[0], now);
      AscendingRest(receipts);
      RowsBring(next, receipts[1..], claims[1..], now);
      OnlyAddsTwice(s, next, IngestAll(s, receipts, claims, now).value);
      BringsOn(s, next, IngestAll(s, receipts, claims, now).value, receipts, claims, now);
    }
  }

  /** A page that is taken stores every row beyond the cursor, and those only, each with a claim that is due at once.
      What was there before, and all money, is left alone. */
  lemma PageBrings(s: State, page: Page, claims: seq<Id>, maintenance: bool, now: int)
    requires |claims| == |page.receipts| && Ingest(s, page, claims, maintenance, now).Ok?
    ensures var s' := Ingest(s, page, claims, maintenance, now).value;
            OnlyAdds(s, s') && BroughtAll(s, s', page.receipts, claims, now)
  {
    IngestForm(s, page, claims, maintenance, now);
    RowsBring(s, page.receipts, claims, now);
  }

  // --------------------------------------------------------------- attempts

  /** One claim and its job changed, nothing else but money. */
  ghost predicate OnlyClaim(s: State, s': State, claim: Id) {
    && s'.grants.Keys == s.grants.Keys && s'.jobs.Keys == s.jobs.Keys
    && (forall c :: c in s.grants && c != claim ==> s'.grants[c] == s.grants[c])
    && (forall c :: c in s.jobs && c != claim ==> s'.jobs[c] == s.jobs[c])
    && s' == s.(grants := s'.grants, jobs := s'.jobs, issuances := s'.issuances, ledger := s'.ledger,
                reserve := s'.reserve)
  }

  function Held(reserve: map<User, int>, u: User): int { if u in reserve then reserve[u] else 0 }

  /** The claim is confirmed with this amount, which its user, and nobody else, was credited now. */
  ghost predicate Pays(s: State, s': State, claim: Id, amount: int)
    requires claim in s.grants && claim in s.jobs
  {
    var u := s.grants[claim].user;
    && OnlyClaim(s, s', claim)
    && s'.grants[claim] == Grant(u, s.grants[claim].ordinal, Confirmed) && s'.jobs[claim].status == Done
    && s'.jobs[claim].attempts == s.jobs[claim].attempts + 1
    && s'.issuances == s.issuances[claim := amount] && u !in s.ledger && s'.ledger == s.ledger[u := amount]
    && (forall v: User :: Held(s'.reserve, v) == Held(s.reserve, v) + if v == u then amount else 0)
  }

  /** What becomes of a due claim that is attempted. A commit pays it once, whether or not its reply arrives. A rollback
      counts the attempt and makes the claim due again ten seconds after it is marked; a crash leaves it as due as it
      was. Neither moves money. */
  lemma AttemptDoes(s: State, claim: Id, now: int, fate: Fate, later: int)
    requires Inv(s) && Due(s, claim, now) && (fate.Committed? || fate.ReplyLost? ==> 0 <= fate.credited <= GRANT)
    ensures var s' := Attempted(s, claim, fate, later);
            if fate.Committed? || fate.ReplyLost? then Pays(s, s', claim, fate.credited)
            else if fate.Crashed? then s' == s
            else
              && OnlyClaim(s, s', claim)
              && s'.issuances == s.issuances && s'.ledger == s.ledger && s'.reserve == s.reserve
              && s'.grants[claim] == Grant(s.grants[claim].user, s.grants[claim].ordinal, Recovering)
              && s'.jobs[claim].attempts == s.jobs[claim].attempts + 1
              && forall t :: Due(s', claim, t) <==> t >= later + 10
  {
    NotYetCredited(s.inbox, s.grants, s.jobs, s.issuances, s.ledger, claim);
    if fate.Committed? || fate.ReplyLost? {
      AttemptedKeeps(s, claim, fate, later);
      ConfirmPays(s, claim, fate.credited);
    } else if fate.RolledBack? {
      RetryWaits(s, claim, later);
    }
  }

  lemma ConfirmPays(s: State, claim: Id, credited: int)
    requires claim in s.grants && claim in s.jobs && s.grants[claim].user !in s.ledger
    ensures Pays(s, Confirm(s, claim, credited), claim, credited)
  {
    ConfirmForm(s, claim, credited);
  }

  lemma RetryWaits(s: State, claim: Id, later: int)
    requires claim in s.grants && claim in s.jobs && s.grants[claim].status != Confirmed
    requires s.grants[claim].ordinal in s.inbox
    ensures var s' := Retry(s, claim, later);
            && OnlyClaim(s, s', claim)
            && s'.issuances == s.issuances && s'.ledger == s.ledger && s'.reserve == s.reserve
            && s'.grants[claim] == Grant(s.grants[claim].user, s.grants[claim].ordinal, Recovering)
            && s'.jobs[claim].attempts == s.jobs[claim].attempts + 1
            && forall t :: Due(s', claim, t) <==> t >= later + 10
  {
    RetryForm(s, claim, later);
  }

  // ------------------------------------------------------- never forgotten

  /** Every open claim is due by the given time. */
  ghost predicate AllDueBy(jobs: map<Id, Job>, time: int) {
    forall c :: c in jobs && jobs[c].status != Done ==> jobs[c].nextAt <= time
  }

  predicate Before(step: Step, time: int) {
    (step.IngestStep? ==> step.now <= time) && (step.RetryStep? ==> step.now <= time)
  }

  lemma {:induction false} RowsDueBy(s: State, receipts: seq<Receipt>, claims: seq<Id>, now: int, time: int)
    requires |claims| == |receipts| && IngestAll(s, receipts, claims, now).Ok? && AllDueBy(s.jobs, time) && now <= time
    ensures AllDueBy(IngestAll(s, receipts, claims, now).value.jobs, time)
    decreases |receipts|
  {
    if receipts != [] {
      if receipts[0].ordinal > s.cursor { IngestOneForm(s, receipts[0], claims[0], now); }
      RowsDueBy(IngestOne(s, receipts[0], claims[0], now).value, receipts[1..], claims[1..], now, time);
    }
  }

  lemma NextDueBy(s: State, step: Step, time: int)
    requires Enabled(s, step) && Before(step, time) && AllDueBy(s.jobs, time + 10)
    ensures AllDueBy(Next(s, step).jobs, time + 10)
  {
    if step.IngestStep? && Ingest(s, step.page, step.claims, step.maintenance, step.now).Ok? {
      IngestForm(s, step.page, step.claims, step.maintenance, step.now);
      RowsDueBy(s, step.page.receipts, step.claims, step.now, time + 10);
    }
  }

  lemma {:induction false} RunDueBy(s: State, steps: seq<Step>, time: int)
    requires Runs(s, steps) && AllDueBy(s.jobs, time + 10) && forall i :: 0 <= i < |steps| ==> Before(steps[i], time)
    ensures AllDueBy(Run(s, steps).jobs, time + 10)
    decreases |steps|
  {
    if steps != [] {
      NextDueBy(s, steps[0], time);
      RunDueBy(Next(s, steps[0]), steps[1..], time);
    }
  }

  /** The claim of this receipt has been paid, or is due again by that time. */
  ghost predicate PaidOrDue(s: State, o: int, time: int) {
    exists c :: c in s.grants && s.grants[c].ordinal == o && (c in s.issuances || Due(s, c, time))
  }

  lemma OpenIsDue(s: State, o: int, time: int)
    requires ClaimsOk(s) && AllDueBy(s.jobs, time) && o in s.inbox
    ensures PaidOrDue(s, o, time)
  {
    var c :| c in s.grants && s.grants[c].ordinal == o;
    assert c in s.issuances || Due(s, c, time);
  }

  /** However often attempts fail, crash or lose their reply: every ingested receipt has a claim that is either paid or
      due again within ten seconds. */
  lemma NeverForgotten(start: State, steps: seq<Step>, o: int, time: int)
    requires IsStart(start) && Runs(start, steps) && o in Run(start, steps).inbox
    requires forall i :: 0 <= i < |steps| ==> Before(steps[i], time)
    ensures PaidOrDue(Run(start, steps), o, time + 10)
  {
    StartInv(start);
    RunKeeps(start, steps);
    RunDueBy(start, steps, time);
    OpenIsDue(Run(start, steps), o, time + 10);
  }
}
