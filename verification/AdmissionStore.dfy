/** The admission operations as they run: page validation, ingest and grant recovery, and the worker's cycle. */
module AdmissionStore {
  import opened Numbers
  import opened Wrappers
  import opened Decimal
  import opened Admission
  import opened AdmissionRuns

  ghost predicate RowsTo(rows: seq<Receipt>, after: int, n: nat) {
    n <= |rows| && forall k :: 0 <= k < n ==> rows[k].ordinal == after + 1 + k && WellFormed(rows[k])
  }

  function UsersOf(rows: seq<Receipt>): seq<User> { seq(|rows|, i requires 0 <= i < |rows| => rows[i].user) }

  function OperationsOf(rows: seq<Receipt>): seq<string> {
    seq(|rows|, i requires 0 <= i < |rows| => rows[i].operation)
  }

  /** The first n values are pairwise different. */
  ghost predicate DistinctTo<T>(xs: seq<T>, n: nat) { n <= |xs| && forall j, k :: 0 <= j < k < n ==> xs[j] != xs[k] }

  ghost predicate SeenTo<T>(xs: seq<T>, n: nat, seen: set<T>) {
    n <= |xs| && (forall k :: 0 <= k < n ==> xs[k] in seen) && forall x :: x in seen ==> x in xs[..n]
  }

  lemma SeenStep<T>(xs: seq<T>, n: nat, seen: set<T>)
    requires n < |xs| && SeenTo(xs, n, seen) && DistinctTo(xs, n)
    ensures SeenTo(xs, n + 1, seen + {xs[n]})
    ensures xs[n] !in seen <==> DistinctTo(xs, n + 1)
  {
    assert xs[..n + 1] == xs[..n] + [xs[n]];
  }

  lemma DistinctPrefix<T>(xs: seq<T>, n: nat, m: nat)
    requires n <= m && DistinctTo(xs, m)
    ensures DistinctTo(xs, n)
  {
  }

  lemma PageAsRows(page: Page, limit: nat)
    ensures ValidPage(page, limit) <==>
              && page.after >= 0 && 1 <= limit <= 100 && |page.receipts| <= limit
              && page.nextCursor == page.after + |page.receipts|
              && RowsTo(page.receipts, page.after, |page.receipts|)
              && DistinctTo(UsersOf(page.receipts), |page.receipts|)
              && DistinctTo(OperationsOf(page.receipts), |page.receipts|)
  {
    var rows, users, operations := page.receipts, UsersOf(page.receipts), OperationsOf(page.receipts);
    assert forall j, k :: 0 <= j < k < |rows| ==>
      && (users[j] != users[k] <==> rows[j].user != rows[k].user)
      && (operations[j] != operations[k] <==> rows[j].operation != rows[k].operation);
  }

  method CheckPage(page: Page, limit: nat) returns (ok: bool)
    ensures ok == ValidPage(page, limit)
  {
    PageAsRows(page, limit);
    if page.after < 0 || limit < 1 || limit > 100 || |page.receipts| > limit {
      return false;
    }
    var cursor := CheckRows(page.receipts, page.after);
    ok := cursor == Some(page.nextCursor);
  }

  /** Walks the rows with a running cursor and the users and operations seen so far. */
  method CheckRows(rows: seq<Receipt>, after: int) returns (r: Option<int>)
    ensures r == if RowsTo(rows, after, |rows|) && DistinctTo(UsersOf(rows), |rows|)
                    && DistinctTo(OperationsOf(rows), |rows|)
                 then Some(after + |rows|) else None
  {
    ghost var us, ps := UsersOf(rows), OperationsOf(rows);
    var cursor := after;
    var users: set<User>, operations: set<string> := {}, {};
    for i := 0 to |rows|
      invariant cursor == after + i
      invariant RowsTo(rows, after, i)
      invariant DistinctTo(us, i) && SeenTo(us, i, users) && DistinctTo(ps, i) && SeenTo(ps, i, operations)
    {
      var row := rows[i];
      SeenStep(us, i, users);
      SeenStep(ps, i, operations);
      if row.user in users || row.operation in operations {
        if DistinctTo(us, |rows|) { DistinctPrefix(us, i + 1, |rows|); }
        if DistinctTo(ps, |rows|) { DistinctPrefix(ps, i + 1, |rows|); }
        return None;
      }
      if row.ordinal != cursor + 1 || !WellFormed(row) {
        return None;
      }
      users, operations := users + {row.user}, operations + {row.operation};
      cursor := row.ordinal;
    }
    r := Some(cursor);
  }

  /** How an attempt at the grant transaction ends, and what the caller learns of it. */
  datatype Fate = Committed(credited: int) | ReplyLost(credited: int) | RolledBack | Crashed

  class Store {
    var s: State

    ghost predicate Valid()
      reads this
    {
      Inv(s)
    }

    constructor (start: State)
      requires IsStart(start)
      ensures s == start && Valid()
    {
      s := start;
      new;
      StartInv(start);
    }

    method RegisterDiscord(subject: string, policy: string, newUser: User, operation: string, now: int)
      returns (r: Result<User, Error>)
      requires Valid()
      modifies this
      ensures Valid()
      ensures match Register(old(s), subject, policy, newUser, operation, now)
              case Ok(done) => s == done.0 && r == Ok(done.1)
              case Err(e) => s == old(s) && r == Err(e)
    {
      if exists u :: u in s.users && s.users[u].subject == Some(subject) {
        var u :| u in s.users && s.users[u].subject == Some(subject);
        assert Holds(s, u, subject);
        if !s.users[u].active {
          return Err(Credentials);
        }
        return Ok(u);
      }
      assert forall u :: !Holds(s, u, subject);
      if subject == "" || policy == "" {
        return Err(BadRow);
      }
      var taken :=
        exists o :: o in s.receipts
            && var r := s.receipts[o]; r.operation == operation || r.user == newUser || r.subject == subject;
      if newUser <= 0 || newUser in s.users || taken {
        return Err(Collision);
      }
      if s.counter == MAX_INT64 {
        return Err(Overflow);
      }
      RegisterKeeps(s, subject, policy, newUser, operation, now);
      var ordinal := s.counter + 1;
      var users := s.users[newUser := Account(Some(subject), true)];
      var receipts := s.receipts[ordinal := Receipt(ordinal, operation, newUser, subject, SOURCE, policy, now)];
      s := s.(users := users, receipts := receipts, counter := ordinal);
      r := Ok(newUser);
    }

    /** Scans on from the cursor; the answer stays valid however late it is used. */
    method ReadRegistrationPage(after: int, limit: nat) returns (r: Result<Page, Error>)
      requires Valid()
      modifies this
      ensures Valid() && r == ReadPage(old(s), after, limit)
      ensures s == if r.Ok? then old(s).(pages := old(s).pages + {r.value}) else old(s)
    {
      if after < 0 || limit < 1 || limit > 100 {
        return Err(BadPage);
      }
      ReadKeeps(s, after, limit);
      var receipts := ScanReceipts(s.receipts, after, limit);
      r := Ok(Page(after, receipts, after + |receipts|));
      s := s.(pages := s.pages + {r.value});
    }

    /** Takes the page row by row on a private copy and commits all of it or nothing. */
    method IngestRegistrationPage(page: Page, claims: seq<Id>, maintenance: bool, now: int)
      returns (r: Result<int, Error>)
      requires Valid() && |claims| == |page.receipts|
      modifies this
      ensures page in old(s).pages ==> Valid() && (r.Ok? ==> s.cursor == Max(old(s).cursor, page.nextCursor))
      ensures match Ingest(old(s), page, claims, maintenance, now)
              case Ok(done) => s == done && r == Ok(done.cursor)
              case Err(e) => s == old(s) && r == Err(e)
    {
      var valid := CheckPage(page, 100);
      if !valid {
        return Err(BadPage);
      }
      if maintenance {
        return Err(Maintenance);
      }
      if page.after > s.cursor {
        return Err(BadPage);
      }
      var done := IngestRows(s, page.receipts, claims, now);
      if done.Err? {
        return Err(done.error);
      }
      if page in s.pages { IngestKeeps(s, page, claims, maintenance, now); }
      s := done.value;
      r := Ok(s.cursor);
    }

    /** Picks the claim whose attempt has been due longest and tries it; after an error the claim is looked at again
        before it is marked. */
    method RecoverRegistrationGrant(now: int, fate: Fate, later: int) returns (found: bool, ok: bool, ghost claim: Id)
      requires Valid() && (fate.Committed? || fate.ReplyLost? ==> 0 <= fate.credited <= GRANT)
      modifies this
      ensures Valid() && Extends(old(s), s) && Unexplained(s) == Unexplained(old(s))
      ensures !found ==> s == old(s) && ok && forall c :: !Due(s, c, now)
      ensures found ==> Due(old(s), claim, now) && forall c :: Due(old(s), c, now) ==> NotLater(old(s), claim, c)
      ensures found ==> ok == fate.Committed? && s == Attempted(old(s), claim, fate, later)
    {
      SelfSound(s);
      var picked := PickGrant(s, now);
      if picked.None? {
        return false, true, 0;
      }
      var c := picked.value;
      found, claim := true, c;
      AttemptedKeeps(s, c, fate, later);
      if fate.Committed? || fate.ReplyLost? {
        s := Confirm(s, c, fate.credited);
      }
      ok := fate.Committed?;
      if !ok && !fate.Crashed? {
        s := Retry(s, c, later);
      }
    }

    /** Reads on from the cursor and ingests what it finds. */
    method BringIn(claims: seq<Id>, maintenance: bool, now: int)
      requires Valid() && |claims| == 100
      modifies this
      ensures Sound(old(s), s)
    {
      ReadKeeps(s, s.cursor, 100);
      FollowingExact(s.receipts, s.cursor, 100);
      var page := ReadRegistrationPage(s.cursor, 100);
      ghost var read := s;
      var rows := claims[..|page.value.receipts|];
      var r := IngestRegistrationPage(page.value, rows, maintenance, now);
      if r.Ok? {
        IngestKeeps(read, page.value, rows, maintenance, now);
        ExtendsTwice(old(s), read, s);
      }
    }

    /** Works off claims until one fails or none is due. */
    method WorkOff(clocks: seq<int>, fates: seq<Fate>)
      requires Valid() && |fates| == 20 && |clocks| == 20
      requires forall i :: 0 <= i < 20 && (fates[i].Committed? || fates[i].ReplyLost?) ==>
                0 <= fates[i].credited <= GRANT
      modifies this
      ensures Sound(old(s), s)
    {
      SelfSound(s);
      var i := 0;
      while i < 20
        invariant 0 <= i <= 20 && Sound(old(s), s)
      {
        ghost var before := s;
        var found, ok, _ := RecoverRegistrationGrant(clocks[i], fates[i], clocks[i]);
        ExtendsTwice(old(s), before, s);
        if !ok || !found {
          break;
        }
        i := i + 1;
      }
    }

    /** One cycle: already ingested claims are worked off even when reading new receipts fails. */
    method WorkerCycle(claims: seq<Id>, maintenance: bool, now: int, clocks: seq<int>, fates: seq<Fate>)
      requires Valid() && |claims| == 100 && |fates| == 20 && |clocks| == 20
      requires forall i :: 0 <= i < 20 && (fates[i].Committed? || fates[i].ReplyLost?) ==>
                0 <= fates[i].credited <= GRANT
      modifies this
      ensures Sound(old(s), s)
    {
      BringIn(claims, maintenance, now);
      ghost var mid := s;
      WorkOff(clocks, fates);
      ExtendsTwice(old(s), mid, s);
    }
  }

  method ScanReceipts(receipts: map<int, Receipt>, after: int, limit: nat) returns (page: seq<Receipt>)
    ensures page == Following(receipts, after, limit)
  {
    page := [];
    var cursor := after;
    while |page| < limit && cursor + 1 in receipts
      invariant cursor == after + |page| && |page| <= limit
      invariant page + Following(receipts, cursor, limit - |page|) == Following(receipts, after, limit)
      decreases limit - |page|
    {
      FollowingStep(receipts, page, cursor, limit - |page|);
      page := page + [receipts[cursor + 1]];
      cursor := cursor + 1;
    }
  }

  lemma FollowingStep(receipts: map<int, Receipt>, taken: seq<Receipt>, cursor: int, n: nat)
    requires n > 0 && cursor + 1 in receipts
    ensures taken + Following(receipts, cursor, n) == taken + [receipts[cursor + 1]] + Following(receipts, cursor + 1,
                                                                                                 n - 1)
  {
  }

  method IngestRows(s: State, receipts: seq<Receipt>, claims: seq<Id>, now: int) returns (r: Result<State, Error>)
    requires |claims| == |receipts|
    ensures r == IngestAll(s, receipts, claims, now)
  {
    var tx := s;
    for i := 0 to |receipts|
      invariant IngestAll(tx, receipts[i..], claims[i..], now) == IngestAll(s, receipts, claims, now)
    {
      assert receipts[i..][0] == receipts[i] && receipts[i..][1..] == receipts[i + 1..];
      assert claims[i..][0] == claims[i] && claims[i..][1..] == claims[i + 1..];
      var next := IngestRow(tx, receipts[i], claims[i], now);
      if next.Err? {
        return Err(next.error);
      }
      tx := next.value;
    }
    r := Ok(tx);
  }

  method IngestRow(s: State, r: Receipt, claim: Id, now: int) returns (next: Result<State, Error>)
    ensures next == IngestOne(s, r, claim, now)
  {
    if r.ordinal <= s.cursor {
      if r.ordinal !in s.inbox {
        return Err(NoRow);
      }
      if s.inbox[r.ordinal] != r {
        return Err(BadPage);
      }
      return Ok(s);
    }
    if r.ordinal != s.cursor + 1 {
      return Err(BadPage);
    }
    var inboxClash :=
      exists o :: o in s.inbox
          && (s.inbox[o].operation == r.operation || s.inbox[o].user == r.user || s.inbox[o].subject == r.subject);
    var grantClash := exists c :: c in s.grants && (s.grants[c].ordinal == r.ordinal || s.grants[c].user == r.user);
    if r.ordinal in s.inbox || inboxClash || claim in s.grants || claim in s.jobs || grantClash {
      return Err(Collision);
    }
    var inbox := s.inbox[r.ordinal := r];
    var grants := s.grants[claim := Grant(r.user, r.ordinal, Waiting)];
    var jobs := s.jobs[claim := Job(Pending, 0, now)];
    next := Ok(s.(inbox := inbox, grants := grants, jobs := jobs, cursor := r.ordinal));
  }

  /** The order of the queue: by the time of the next attempt, then by receipt. */
  predicate NotLater(s: State, c: Id, d: Id) {
    && c in s.jobs && d in s.jobs && c in s.grants && d in s.grants
    && s.jobs[c].nextAt <= s.jobs[d].nextAt
    && (s.jobs[c].nextAt == s.jobs[d].nextAt ==> s.grants[c].ordinal <= s.grants[d].ordinal)
  }

  method PickGrant(s: State, now: int) returns (claim: Option<Id>)
    ensures claim.Some? ==> Due(s, claim.value, now) && forall c :: Due(s, c, now) ==> NotLater(s, claim.value, c)
    ensures claim.None? ==> forall c :: !Due(s, c, now)
  {
    claim := None;
    var rest := s.jobs.Keys;
    while rest != {}
      invariant rest <= s.jobs.Keys
      invariant claim.Some? ==> Due(s, claim.value, now)
      invariant forall c :: Due(s, c, now) && c !in rest ==> claim.Some? && NotLater(s, claim.value, c)
      decreases rest
    {
      var c :| c in rest;
      if Due(s, c, now) && (claim.None? || !NotLater(s, claim.value, c)) {
        claim := Some(c);
      }
      rest := rest - {c};
    }
    assert forall c :: Due(s, c, now) ==> c in s.jobs.Keys;
  }

  /** What an attempt leaves behind. */
  function Attempted(s: State, claim: Id, fate: Fate, later: int): State
    requires claim in s.grants && claim in s.jobs
  {
    match fate
    case Committed(credited) => Confirm(s, claim, credited)
    case ReplyLost(credited) => Retry(Confirm(s, claim, credited), claim, later)
    case RolledBack => Retry(s, claim, later)
    case Crashed => s
  }

  lemma AttemptedKeeps(s: State, claim: Id, fate: Fate, later: int)
    requires Inv(s) && claim in s.grants && claim in s.jobs && s.grants[claim].status != Confirmed
    requires fate.Committed? || fate.ReplyLost? ==> 0 <= fate.credited <= GRANT
    ensures Sound(s, Attempted(s, claim, fate, later))
    ensures fate.ReplyLost? ==> Attempted(s, claim, fate, later) == Confirm(s, claim, fate.credited)
  {
    match fate
    case Committed(credited) => ConfirmKeeps(s, claim, credited);
    case ReplyLost(credited) => ConfirmKeeps(s, claim, credited);
    case RolledBack => RetryKeeps(s, claim, later);
    case Crashed => SelfSound(s);
  }
}
