/** The second factor: lockout, one-use backup codes and their persistence, internal/identity/store.go, login.go and
    account.go. */
module SecondFactor {
  import opened Wrappers

  type Id = nat

  const MAX_FAILURES: nat := 5
  const LOCKOUT: int := 300

  datatype Factor = Factor(enabled: bool, failed: nat, lockedUntil: Option<int>)
  datatype Backup = Backup(hash: string, used: bool)
  datatype Outcome = NoFactor | Locked | Rejected | Accepted(code: Option<Id>)

  /** One submitted code: whether it is the current time-based code, whether it has the shape of a backup code, and the
      two clock readings taken while it is examined. */
  datatype Code = Code(text: string, totp: bool, backupShape: bool, now: int, lockNow: int)

  type Verifier = (string, string) -> bool

  /** The unused codes, in whatever order the query returns them. */
  ghost predicate Lists(rows: seq<Id>, codes: map<Id, Backup>) {
    && (forall i :: 0 <= i < |rows| ==> rows[i] in codes && !codes[rows[i]].used)
    && (forall id :: id in codes && !codes[id].used ==> id in rows)
  }

  function FirstMatch(rows: seq<Id>, codes: map<Id, Backup>, text: string, verify: Verifier): (r: Option<Id>)
    requires forall i :: 0 <= i < |rows| ==> rows[i] in codes
    ensures r.Some? ==> r.value in rows && verify(text, codes[r.value].hash)
    ensures r.None? ==> forall i :: 0 <= i < |rows| ==> !verify(text, codes[rows[i]].hash)
  {
    if rows == [] then None else if verify(text, codes[rows[0]].hash) then Some(rows[0])
    else FirstMatch(rows[1..], codes, text, verify)
  }

  datatype Account = Account(factor: Option<Factor>, codes: map<Id, Backup>)

  /** What examining a code comes to, and what would be written. */
  function Examine(a: Account, rows: seq<Id>, c: Code, verify: Verifier): (Outcome, Account)
    requires forall i :: 0 <= i < |rows| ==> rows[i] in a.codes
  {
    if a.factor.None? || !a.factor.value.enabled then (NoFactor, a)
    else
      var f := a.factor.value;
      if f.lockedUntil.Some? && c.now < f.lockedUntil.value then (Locked, a)
      else
        var matched := if !c.totp && c.backupShape then FirstMatch(rows, a.codes, c.text, verify) else None;
        if c.totp || matched.Some? then
          (Accepted(matched), Account(Some(f.(failed := 0, lockedUntil := None)),
                                      if matched.Some?
                                        then a.codes[matched.value := a.codes[matched.value].(used := true)]
                                        else a.codes))
        else
          var until := if f.failed + 1 >= MAX_FAILURES then Some(c.lockNow + LOCKOUT) else f.lockedUntil;
          (Rejected, a.(factor := Some(f.(failed := f.failed + 1, lockedUntil := until))))
  }

  /** Accepted only for the current time-based code or an unused backup code, which is then used; rejected only when
      neither fits; while locked nothing is examined and nothing changes. */
  lemma ExaminedRightly(a: Account, rows: seq<Id>, c: Code, verify: Verifier)
    requires Lists(rows, a.codes)
    ensures var (outcome, after) := Examine(a, rows, c, verify);
            match outcome
            case NoFactor => after == a
            case Locked => after == a && c.now < a.factor.value.lockedUntil.value
            case Rejected => !c.totp && after.codes == a.codes
                             && (c.backupShape ==> forall id :: id in a.codes && !a.codes[id].used ==>
                                   !verify(c.text, a.codes[id].hash))
            case Accepted(None) => c.totp && after.codes == a.codes
            case Accepted(Some(id)) => !c.totp && id in a.codes && !a.codes[id].used && verify(c.text, a.codes[id].hash)
                                       && after.codes == a.codes[id := a.codes[id].(used := true)]
  {
    if c.backupShape && FirstMatch(rows, a.codes, c.text, verify).None? {
      forall id | id in a.codes && !a.codes[id].used ensures !verify(c.text, a.codes[id].hash) {
        var i :| 0 <= i < |rows| && rows[i] == id;
      }
    }
  }

  /** The code as it runs, in place, with the loop over the stored codes. */
  class Row {
    var factor: Option<Factor>
    var codes: map<Id, Backup>

    ghost function View(): Account
      reads this
    {
      Account(factor, codes)
    }

    method Authenticate(rows: seq<Id>, c: Code, verify: Verifier) returns (r: Outcome)
      requires forall i :: 0 <= i < |rows| ==> rows[i] in codes
      modifies this
      ensures (r, View()) == Examine(old(View()), rows, c, verify)
    {
      if factor.None? || !factor.value.enabled {
        return NoFactor;
      }
      var f := factor.value;
      var failed, lockedUntil := f.failed, f.lockedUntil;
      if lockedUntil.Some? && c.now < lockedUntil.value {
        return Locked;
      }
      var valid := c.totp;
      var matched: Option<Id> := None;
      if !valid && c.backupShape {
        var i := 0;
        while i < |rows|
          invariant 0 <= i <= |rows| && codes == old(codes) && factor == old(factor) && matched.None? && !valid
          invariant FirstMatch(rows[i..], codes, c.text, verify) == FirstMatch(rows, codes, c.text, verify)
        {
          assert rows[i..][0] == rows[i] && rows[i..][1..] == rows[i + 1..];
          if verify(c.text, codes[rows[i]].hash) {
            matched := Some(rows[i]);
            codes := codes[rows[i] := codes[rows[i]].(used := true)];
            valid := true;
            break;
          }
          i := i + 1;
        }
      }
      if !valid {
        failed := failed + 1;
        if failed >= MAX_FAILURES {
          lockedUntil := Some(c.lockNow + LOCKOUT);
        }
        factor := Some(f.(failed := failed, lockedUntil := lockedUntil));
        return Rejected;
      }
      factor := Some(f.(failed := 0, lockedUntil := None));
      r := Accepted(matched);
    }
  }

  // ------------------------------------------------------------------ runs

  /** Since the last committed success or reset: `examined` are the times at which codes were found wrong, `failures`
      those of them whose transaction committed, `lost` the number of the others. `spent` counts the committed uses of
      each backup code; `known` are all code ids ever stored. */
  datatype State = State(account: Account, time: int, failures: seq<int>, examined: seq<int>, lost: nat,
                         spent: map<Id, nat>, known: set<Id>)

  /** A setup replaces secret and codes of a factor that is not enabled. An attempt may be for a login or for switching
      the factor off, and takes effect only if its transaction commits. An administrator's reset removes the factor
      without a code. */
  datatype Step =
    | Setup(ids: set<Id>, hashes: map<Id, string>, now: int)
    | Enable(valid: bool, now: int)
    | Try(rows: seq<Id>, code: Code, verify: Verifier, committed: bool, disable: bool)
    | Reset(now: int)

  function At(e: Step): int {
    match e
    case Setup(_, _, now) => now
    case Enable(_, now) => now
    case Try(_, c, _, _, _) => c.now
    case Reset(now) => now
  }

  ghost predicate Enabled(s: State, e: Step) {
    && s.time <= At(e)
    && match e
       case Setup(ids, hashes, _) => ids !! s.known && ids <= hashes.Keys
       case Enable(_, _) => true
       case Try(rows, c, _, _, _) => Lists(rows, s.account.codes) && c.now <= c.lockNow
       case Reset(_) => true
  }

  function Active(a: Account): bool { a.factor.Some? && a.factor.value.enabled }

  function Uses(spent: map<Id, nat>, id: Id): nat { if id in spent then spent[id] else 0 }

  ghost function Next(s: State, e: Step): State
    requires Enabled(s, e)
  {
    match e
    case Setup(ids, hashes, now) =>
      if Active(s.account) then s
      else s.(account := Account(Some(Factor(false, 0, None)), map id | id in ids :: Backup(hashes[id], false)),
              time := now, known := s.known + ids)
    case Enable(valid, now) =>
      if s.account.factor.None? || s.account.factor.value.enabled || !valid then s
      else s.(account := s.account.(factor := Some(s.account.factor.value.(enabled := true))), time := now)
    case Try(rows, c, verify, committed, disable) =>
      var (outcome, after) := Examine(s.account, rows, c, verify);
      (match outcome
       case NoFactor => s
       case Locked => s
       case Rejected =>
         var seen := s.(time := c.lockNow, examined := s.examined + [c.lockNow]);
         if committed then seen.(account := after, failures := s.failures + [c.lockNow]) else seen.(lost := s.lost + 1)
       case Accepted(code) =>
         if !committed then s
         else s.(account := if disable then Account(None, map[]) else after, time := c.lockNow, failures := [],
                 examined := [], lost := 0,
                 spent := if code.Some? then s.spent[code.value := Uses(s.spent, code.value) + 1] else s.spent))
    case Reset(now) => s.(account := Account(None, map[]), time := now, failures := [], examined := [], lost := 0)
  }

  /** The failure counter is the number of failures on record. There is no lock before the fifth; from then on it runs
      300 seconds from the last one. */
  ghost predicate LockOk(s: State) {
    && (Active(s.account) ==> s.account.factor.value.failed == |s.failures|)
    && (!Active(s.account) ==>
          && s.failures == []
          && (s.account.factor.Some? ==>
                s.account.factor.value.failed == 0 && s.account.factor.value.lockedUntil.None?))
    && (forall i :: 0 <= i < |s.failures| ==> s.failures[i] <= s.time)
    && (|s.failures| >= MAX_FAILURES && Active(s.account) ==>
          s.account.factor.value.lockedUntil == Some(s.failures[|s.failures| - 1] + LOCKOUT))
    && (|s.failures| < MAX_FAILURES && Active(s.account) ==> s.account.factor.value.lockedUntil.None?)
    && Spaced(s.failures)
  }

  /** In order of time, and from the fifth on at least the lockout apart. */
  ghost predicate Spaced(times: seq<int>) {
    forall i :: 0 < i < |times| ==> times[i - 1] + (if i >= MAX_FAILURES then LOCKOUT else 0) <= times[i]
  }

  lemma SpacedSnoc(times: seq<int>, t: int)
    requires Spaced(times)
    requires times != [] ==> times[|times| - 1] + (if |times| >= MAX_FAILURES then LOCKOUT else 0) <= t
    ensures Spaced(times + [t])
  {
    var more := times + [t];
    forall i | 0 < i < |more| ensures more[i - 1] + (if i >= MAX_FAILURES then LOCKOUT else 0) <= more[i] {
      if i < |times| { assert more[i] == times[i] && more[i - 1] == times[i - 1]; }
    }
  }

  /** Every wrong code is a failure on record or a lost commit, in the order of time. */
  ghost predicate ExaminedOk(s: State) {
    && |s.examined| == |s.failures| + s.lost
    && (forall i, j :: 0 <= i <= j < |s.examined| ==> s.examined[i] <= s.examined[j] <= s.time)
    && (s.failures != [] ==>
          s.examined[0] <= s.failures[0] && s.failures[|s.failures| - 1] <= s.examined[|s.examined| - 1])
    && (!Active(s.account) ==> s.examined == [])
  }

  ghost predicate CodesOk(s: State) {
    && (forall id :: id in s.account.codes ==> id in s.known)
    && (forall id :: id in s.spent ==> id in s.known && s.spent[id] <= 1)
    && (forall id :: id in s.account.codes && id in s.spent && s.spent[id] == 1 ==> s.account.codes[id].used)
  }

  ghost predicate Inv(s: State) { LockOk(s) && ExaminedOk(s) && CodesOk(s) }

  lemma RejectedKeepsLock(s: State, e: Step)
    requires Inv(s) && Enabled(s, e) && e.Try? && Examine(s.account, e.rows, e.code, e.verify).0 == Rejected
    ensures LockOk(Next(s, e)) && ExaminedOk(Next(s, e))
  {
    if e.committed { SpacedSnoc(s.failures, e.code.lockNow); }
  }

  lemma NextKeeps(s: State, e: Step)
    requires Inv(s) && Enabled(s, e)
    ensures Inv(Next(s, e))
  {
    if e.Try? && Examine(s.account, e.rows, e.code, e.verify).0 == Rejected { RejectedKeepsLock(s, e); }
  }

  ghost predicate Runs(s: State, steps: seq<Step>)
    decreases |steps|
  {
    steps == [] || (Enabled(s, steps[0]) && Runs(Next(s, steps[0]), steps[1..]))
  }

  ghost function Run(s: State, steps: seq<Step>): State
    requires Runs(s, steps)
    decreases |steps|
  {
    if steps == [] then s else Run(Next(s, steps[0]), steps[1..])
  }

  lemma {:induction false} RunKeeps(s: State, steps: seq<Step>)
    requires Inv(s) && Runs(s, steps)
    ensures Inv(Run(s, steps))
    decreases |steps|
  {
    if steps != [] {
      NextKeeps(s, steps[0]);
      RunKeeps(Next(s, steps[0]), steps[1..]);
    }
  }

  predicate IsStart(s: State) { s == State(Account(None, map[]), s.time, [], [], 0, map[], {}) }

  lemma {:induction false} Spread(times: seq<int>, n: nat)
    requires Spaced(times) && 0 < n <= |times|
    ensures times[n - 1] - times[0] >= LOCKOUT * (if n > MAX_FAILURES then n - MAX_FAILURES else 0)
    decreases n
  {
    if n > 1 { Spread(times, n - 1); }
  }

  function Span(times: seq<int>): int { if times == [] then 0 else times[|times| - 1] - times[0] }

  /** However attempts are spread over logins and account changes: of n codes found wrong since the last success or
      reset, each beyond the fifth takes 300 seconds, save for those whose transaction did not commit. */
  lemma GuessingTakesTime(start: State, steps: seq<Step>)
    requires IsStart(start) && Runs(start, steps)
    ensures var s := Run(start, steps); Span(s.examined) >= LOCKOUT * (|s.examined| - s.lost - MAX_FAILURES)
  {
    RunKeeps(start, steps);
    var s := Run(start, steps);
    if s.failures != [] { Spread(s.failures, |s.failures|); }
  }

  // A code whose commit is lost was examined for nothing.

  function Guess(committed: bool): Step {
    Try([], Code("guess", false, false, 0, 0), (a: string, b: string) => false, committed, false)
  }

  function Guesses(n: nat, committed: bool): seq<Step> {
    if n == 0 then [] else [Guess(committed)] + Guesses(n - 1, committed)
  }

  /** A factor without backup codes, enabled and not locked, at the first instant. */
  predicate Waiting(s: State, failed: nat) {
    s.account == Account(Some(Factor(true, failed, None)), map[]) && s.time == 0
  }

  /** So many wrong codes in a row, all at that instant: committed ones as long as they stay below the lock, lost ones
      without limit. */
  lemma {:induction false} GuessesRun(s: State, failed: nat, n: nat, committed: bool)
    requires Waiting(s, failed) && (forall i :: 0 <= i < |s.examined| ==> s.examined[i] == 0)
    requires committed ==> failed + n < MAX_FAILURES
    ensures Runs(s, Guesses(n, committed))
    ensures var s' := Run(s, Guesses(n, committed));
            && Waiting(s', if committed then failed + n else failed) && s'.lost == s.lost + (if committed then 0 else n)
            && |s'.examined| == |s.examined| + n && forall i :: 0 <= i < |s'.examined| ==> s'.examined[i] == 0
    decreases n
  {
    if n > 0 {
      var next := Next(s, Guess(committed));
      assert Waiting(next, if committed then failed + 1 else failed);
      GuessesRun(next, if committed then failed + 1 else failed, n - 1, committed);
      RunsCons(s, Guess(committed), Guesses(n - 1, committed));
    }
  }

  lemma RunsCons(s: State, e: Step, rest: seq<Step>)
    requires Enabled(s, e) && Runs(Next(s, e), rest)
    ensures Runs(s, [e] + rest) && Run(s, [e] + rest) == Run(Next(s, e), rest)
  {
    assert ([e] + rest)[1..] == rest;
  }

  lemma {:induction false} RunsConcat(s: State, a: seq<Step>, b: seq<Step>)
    requires Runs(s, a) && Runs(Run(s, a), b)
    ensures Runs(s, a + b) && Run(s, a + b) == Run(Run(s, a), b)
    decreases |a|
  {
    if a == [] {
      assert a + b == b;
    } else {
      RunsConcat(Next(s, a[0]), a[1..], b);
      assert (a + b)[0] == a[0] && (a + b)[1..] == a[1..] + b;
    }
  }

  const START: State := State(Account(None, map[]), 0, [], [], 0, map[], {})

  lemma Ready() returns (steps: seq<Step>)
    ensures Runs(START, steps) && Waiting(Run(START, steps), 0) && Run(START, steps).examined == []
    ensures Run(START, steps).lost == 0
  {
    var setup, enable := Setup({}, map[], 0), Enable(true, 0);
    var ready := Next(START, setup);
    assert ready.account == Account(Some(Factor(false, 0, None)), map[]);
    assert Runs(Next(ready, enable), []);
    RunsCons(ready, enable, []);
    RunsCons(START, setup, [enable] + []);
    steps := [setup] + ([enable] + []);
  }

  /** With that many lost commits, five more codes than those can be examined at one instant. */
  lemma LostGuessesAreFree(lost: nat) returns (steps: seq<Step>)
    ensures Runs(START, steps)
    ensures var s := Run(START, steps); s.lost == lost && |s.examined| == lost + MAX_FAILURES && Span(s.examined) == 0
  {
    var ready := Ready();
    var s1 := Run(START, ready);
    GuessesRun(s1, 0, lost, false);
    RunsConcat(START, ready, Guesses(lost, false));
    var s2 := Run(s1, Guesses(lost, false));
    GuessesRun(s2, 0, 4, true);
    RunsConcat(START, ready + Guesses(lost, false), Guesses(4, true));
    var s3 := Run(s2, Guesses(4, true));
    LastGuess(s3);
    steps := ready + Guesses(lost, false) + Guesses(4, true) + [Guess(true)];
    RunsConcat(START, ready + Guesses(lost, false) + Guesses(4, true), [Guess(true)]);
  }

  /** The fifth failure is still examined; it sets the lock. */
  lemma LastGuess(s: State)
    requires Waiting(s, 4) && forall i :: 0 <= i < |s.examined| ==> s.examined[i] == 0
    ensures Runs(s, [Guess(true)])
    ensures var s' := Run(s, [Guess(true)]);
            && s'.lost == s.lost && |s'.examined| == |s.examined| + 1
            && forall i :: 0 <= i < |s'.examined| ==> s'.examined[i] == 0
  {
    assert Runs(Next(s, Guess(true)), []);
    RunsCons(s, Guess(true), []);
    assert [Guess(true)] + [] == [Guess(true)];
  }

  /** A run with that many lost commits in which every wrong code beyond the fifth took 300 seconds. */
  ghost predicate Slow(steps: seq<Step>) {
    Runs(START, steps) && var s := Run(START, steps); Span(s.examined) >= LOCKOUT * (|s.examined| - MAX_FAILURES)
  }

  ghost predicate Loses(steps: seq<Step>, lost: nat) { Runs(START, steps) && Run(START, steps).lost == lost }

  /** The bound holds for every code examined exactly as long as no commit is lost. */
  lemma SlowExactly(lost: nat)
    ensures (forall steps :: Loses(steps, lost) ==> Slow(steps)) <==> lost == 0
  {
    if lost > 0 {
      var steps := LostGuessesAreFree(lost);
      assert Loses(steps, lost) && !Slow(steps);
    } else {
      forall steps | Loses(steps, lost) ensures Slow(steps) { GuessingTakesTime(START, steps); }
    }
  }

  /** A backup code is accepted in at most one committed transaction. */
  lemma BackupCodeOnce(start: State, steps: seq<Step>, id: Id)
    requires IsStart(start) && Runs(start, steps)
    ensures Uses(Run(start, steps).spent, id) <= 1
  {
    RunKeeps(start, steps);
  }

  // --------------------------------------------- what an attempt comes to

  /** The current time-based code, or the text of a backup code not used yet. */
  ghost predicate Fits(s: State, c: Code, verify: Verifier) {
    c.totp || (c.backupShape && exists id :: id in s.account.codes && Opens(s.account.codes[id], c, verify))
  }

  predicate Opens(b: Backup, c: Code, verify: Verifier) { !b.used && verify(c.text, b.hash) }

  /** Five codes were wrong since the last success, the last of them less than 300 seconds ago. */
  predicate Barred(s: State, now: int) { |s.failures| >= 5 && now < s.failures[|s.failures| - 1] + 300 }

  /** Leads from an account without a factor to `s`. */
  ghost predicate Reaches(start: State, steps: seq<Step>, s: State) {
    IsStart(start) && Runs(start, steps) && Run(start, steps) == s
  }

  /** In every reachable state: an attempt is turned away unread exactly while barred; otherwise it is accepted exactly
      for a fitting code. */
  lemma AnsweredExactly(start: State, steps: seq<Step>, s: State, e: Step)
    requires Reaches(start, steps, s) && Enabled(s, e) && e.Try?
    ensures var outcome := Examine(s.account, e.rows, e.code, e.verify).0;
            && (outcome == NoFactor <==> !Active(s.account))
            && (outcome == Locked <==> Active(s.account) && Barred(s, e.code.now))
            && (outcome.Accepted? <==>
                  Active(s.account) && !Barred(s, e.code.now) && Fits(s, e.code, e.verify))
  {
    RunKeeps(start, steps);
    if !e.code.totp && e.code.backupShape { FitsInRows(s, e); }
  }

  lemma FitsInRows(s: State, e: Step)
    requires Enabled(s, e) && e.Try? && !e.code.totp && e.code.backupShape
    ensures Fits(s, e.code, e.verify) <==> FirstMatch(e.rows, s.account.codes, e.code.text, e.verify).Some?
  {
    var codes, c := s.account.codes, e.code;
    if Fits(s, c, e.verify) {
      var id :| id in codes && Opens(codes[id], c, e.verify);
      var i :| 0 <= i < |e.rows| && e.rows[i] == id;
    }
    var found := FirstMatch(e.rows, codes, c.text, e.verify);
    if found.Some? { assert Opens(codes[found.value], c, e.verify); }
  }

  /** One fitting backup code is used up, every other code stays as it was. */
  ghost predicate UsesUp(codes: map<Id, Backup>, codes': map<Id, Backup>, c: Code, verify: Verifier) {
    exists id :: id in codes && Opens(codes[id], c, verify) && codes' == codes[id := Backup(codes[id].hash, true)]
  }

  /** What a committed attempt leaves behind, when it was read at all: a fitting code clears counter and lock, or, for
      switching off, removes factor and codes; a wrong one counts as one failure, which from the fifth on bars for 300
      seconds from then. An attempt turned away or not committed changes nothing. */
  lemma AttemptLeaves(start: State, steps: seq<Step>, s: State, e: Step)
    requires Reaches(start, steps, s) && Enabled(s, e) && e.Try?
    ensures var read, s' := Active(s.account) && !Barred(s, e.code.now), Next(s, e);
            if !read || !e.committed then s'.account == s.account && s'.failures == s.failures
            else if !Fits(s, e.code, e.verify) then
              && s'.failures == s.failures + [e.code.lockNow] && s'.account.codes == s.account.codes
              && s'.account.factor == Some(Factor(true, |s.failures| + 1,
                                                  if |s.failures| >= 4 then Some(e.code.lockNow + 300) else None))
            else
              && s'.failures == []
              && if e.disable then s'.account == Account(None, map[])
                 else
                   && s'.account.factor == Some(Factor(true, 0, None))
                   && if e.code.totp then s'.account.codes == s.account.codes
                      else UsesUp(s.account.codes, s'.account.codes, e.code, e.verify)
  {
    AnsweredExactly(start, steps, s, e);
    ExaminedRightly(s.account, e.rows, e.code, e.verify);
    RunKeeps(start, steps);
    var outcome := Examine(s.account, e.rows, e.code, e.verify).0;
    if outcome.Accepted? && outcome.code.Some? {
      var id := outcome.code.value;
      assert Opens(s.account.codes[id], e.code, e.verify);
    }
  }

  /** A setup, confirmed by a valid code, arms exactly the codes handed out; neither touches a factor already in force.
      A reset always ends it. */
  lemma SwitchedOnAndOff(s: State, ids: set<Id>, hashes: map<Id, string>, now: int, valid: bool, later: int)
    requires Inv(s) && Enabled(s, Setup(ids, hashes, now)) && now <= later
    ensures var s1 := Next(s, Setup(ids, hashes, now));
            && Enabled(s1, Enable(valid, later))
            && var s2 := Next(s1, Enable(valid, later));
               if Active(s.account) then s2 == s
               else
                 && !Active(s1.account) && Active(s2.account) == valid && s2.account.codes.Keys == ids
                 && (forall id :: id in ids ==> s2.account.codes[id] == Backup(hashes[id], false))
                 && s2.account.factor == Some(Factor(valid, 0, None)) && s2.failures == []
    ensures var s' := Next(s, Reset(now)); s'.account == Account(None, map[]) && s'.failures == []
  {
  }
}
