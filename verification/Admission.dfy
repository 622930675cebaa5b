/** Registration receipts, the ingest cursor and the initial grant, as functions of the stored rows:
    internal/identity/registration.go, internal/platform/admission.go and admission_receipt.go. */
module Admission {
  import opened Numbers
  import opened Wrappers
  import opened Decimal

  type Id = nat
  type User = int

  datatype Account = Account(subject: Option<string>, active: bool)
  datatype Receipt = Receipt(ordinal: int, operation: string, user: User, subject: string, source: string,
                             policy: string, createdAt: int)
  datatype GrantStatus = Waiting | Recovering | Confirmed
  datatype Grant = Grant(user: User, ordinal: int, status: GrantStatus)
  datatype JobStatus = Pending | Retrying | Done
  datatype Job = Job(status: JobStatus, attempts: nat, nextAt: int)
  datatype Page = Page(after: int, receipts: seq<Receipt>, nextCursor: int)

  /** `legacy` are the accounts older than the receipts; `ledger` holds the grant entry actually credited, by business
      key; `pages` are the answers read so far, any of which may still arrive. */
  datatype State = State(legacy: set<User>, users: map<User, Account>, counter: int, receipts: map<int, Receipt>,
                         cursor: int, inbox: map<int, Receipt>, grants: map<Id, Grant>, jobs: map<Id, Job>,
                         issuances: map<Id, int>, ledger: map<User, int>, reserve: map<User, int>, pages: set<Page>)

  datatype Error = Credentials | BadPage | BadRow | Maintenance | Collision | Overflow | NoRow

  const GRANT: int := 500_000_000
  const SOURCE := "NEW_DISCORD_REGISTRATION"

  // ---------------------------------------------------------- registration

  ghost predicate Holds(s: State, u: User, subject: string) { u in s.users && s.users[u].subject == Some(subject) }

  ghost predicate ReceiptClash(s: State, operation: string, user: User, subject: string) {
    exists o :: o in s.receipts
        && (s.receipts[o].operation == operation || s.receipts[o].user == user || s.receipts[o].subject == subject)
  }

  /** Under the counter's lock: the existing account of the subject, or a new one with the next receipt. */
  ghost function Register(s: State, subject: string, policy: string, newUser: User, operation: string,
                          now: int): Result<(State, User), Error> {
    if exists u :: Holds(s, u, subject) then
      var u :| Holds(s, u, subject);
      if s.users[u].active then Ok((s, u)) else Err(Credentials)
    else if subject == "" || policy == "" then Err(BadRow)
    else if newUser <= 0 || newUser in s.users || ReceiptClash(s, operation, newUser, subject) then Err(Collision)
    else if s.counter == MAX_INT64 then Err(Overflow)
    else
      var o := s.counter + 1;
      Ok((s.(users := s.users[newUser := Account(Some(subject), true)], counter := o,
             receipts := s.receipts[o := Receipt(o, operation, newUser, subject, SOURCE, policy, now)]), newUser))
  }

  /** Later changes of an account's link and standing; the receipts do not follow them. */
  ghost function ChangeAccount(s: State, user: User, account: Account): State {
    if user !in s.users || (account.subject.Some? && exists u :: u != user && Holds(s, u, account.subject.value)) then s
    else s.(users := s.users[user := account])
  }

  // ----------------------------------------------------------------- pages

  /** Receipts after + 1, after + 2, ... as far as they go, at most n of them. */
  function Following(receipts: map<int, Receipt>, after: int, n: nat): seq<Receipt>
    decreases n
  {
    if n == 0 || after + 1 !in receipts then [] else [receipts[after + 1]] + Following(receipts, after + 1, n - 1)
  }

  predicate HexDigit(c: char) { IsDigit(c) || 'a' <= c <= 'f' }

  /** A version 4 UUID in lower case. */
  predicate Uuid4(s: string) {
    && |s| == 36 && s[8] == s[13] == s[18] == s[23] == '-' && s[14] == '4' && s[19] in "89ab"
    && forall i :: 0 <= i < 36 && i !in {8, 13, 18, 23} ==> HexDigit(s[i])
  }

  /** The zero value of a Go time, as seconds of the Unix clock. */
  const NO_TIME: int := -62_135_596_800

  predicate WellFormed(r: Receipt) {
    && r.createdAt != NO_TIME && Uuid4(r.operation) && r.user > 0 && 17 <= |r.subject| <= 20 && AllDigits(r.subject)
    && r.subject[0] != '0' && r.source == SOURCE
    && 1 <= |r.policy| <= 64 && '\r' !in r.policy && '\n' !in r.policy && '\0' !in r.policy
  }

  /** Consecutive well-formed receipts of distinct users and operations, from just after the cursor asked for. */
  ghost predicate ValidPage(page: Page, limit: nat) {
    && page.after >= 0 && 1 <= limit <= 100 && |page.receipts| <= limit
    && (forall i :: 0 <= i < |page.receipts| ==>
          page.receipts[i].ordinal == page.after + 1 + i && WellFormed(page.receipts[i]))
    && (forall i, j :: 0 <= i < j < |page.receipts| ==>
          page.receipts[i].user != page.receipts[j].user && page.receipts[i].operation != page.receipts[j].operation)
    && page.nextCursor == page.after + |page.receipts|
  }

  ghost function ReadPage(s: State, after: int, limit: nat): Result<Page, Error> {
    if after < 0 || limit < 1 || limit > 100 then Err(BadPage)
    else
      var receipts := Following(s.receipts, after, limit);
      Ok(Page(after, receipts, after + |receipts|))
  }

  // ---------------------------------------------------------------- ingest

  ghost predicate InboxClash(s: State, r: Receipt) {
    exists o :: o in s.inbox
        && (s.inbox[o].operation == r.operation || s.inbox[o].user == r.user || s.inbox[o].subject == r.subject)
  }

  ghost predicate GrantClash(s: State, r: Receipt, claim: Id) {
    || claim in s.grants || claim in s.jobs
    || exists c :: c in s.grants && (s.grants[c].ordinal == r.ordinal || s.grants[c].user == r.user)
  }

  /** A receipt at or below the cursor must repeat what is stored; the next one brings its claim and its job; anything
      else is refused. */
  ghost function IngestOne(s: State, r: Receipt, claim: Id, now: int): Result<State, Error> {
    if r.ordinal <= s.cursor then
      if r.ordinal !in s.inbox then Err(NoRow) else if s.inbox[r.ordinal] != r then Err(BadPage) else Ok(s)
    else if r.ordinal != s.cursor + 1 then Err(BadPage)
    else if r.ordinal in s.inbox || InboxClash(s, r) || GrantClash(s, r, claim) then Err(Collision)
    else Ok(s.(inbox := s.inbox[r.ordinal := r], grants := s.grants[claim := Grant(r.user, r.ordinal, Waiting)],
               jobs := s.jobs[claim := Job(Pending, 0, now)], cursor := r.ordinal))
  }

  ghost function IngestAll(s: State, receipts: seq<Receipt>, claims: seq<Id>, now: int): Result<State, Error>
    requires |claims| == |receipts|
    decreases |receipts|
  {
    if receipts == [] then Ok(s)
    else
      var next :- IngestOne(s, receipts[0], claims[0], now);
      IngestAll(next, receipts[1..], claims[1..], now)
  }

  /** All of a page or none of it. */
  ghost function Ingest(s: State, page: Page, claims: seq<Id>, maintenance: bool, now: int): Result<State, Error>
    requires |claims| == |page.receipts|
  {
    if !ValidPage(page, 100) then Err(BadPage)
    else if maintenance then Err(Maintenance)
    else if page.after > s.cursor then Err(BadPage)
    else IngestAll(s, page.receipts, claims, now)
  }

  // ---------------------------------------------------------------- grants

  predicate Due(s: State, claim: Id, now: int) {
    && claim in s.jobs && claim in s.grants && s.grants[claim].ordinal in s.inbox
    && s.jobs[claim].status != Done && s.grants[claim].status != Confirmed && s.jobs[claim].nextAt <= now
  }

  /** Credits the reward once per business key; `credited` is what the policy lets through of a first credit. */
  function Credit(s: State, user: User, credited: int): (State, int) {
    if user in s.ledger then (s, s.ledger[user])
    else (s.(ledger := s.ledger[user := credited],
             reserve := s.reserve[user := (if user in s.reserve then s.reserve[user] else 0) + credited]), credited)
  }

  /** The grant transaction: credit, issuance, confirmation and job done, together. */
  function Confirm(s: State, claim: Id, credited: int): State
    requires claim in s.grants && claim in s.jobs
  {
    var g := s.grants[claim];
    var (paid, amount) := Credit(s, g.user, credited);
    paid.(issuances := paid.issuances[claim := amount],
          grants := paid.grants[claim := g.(status := Confirmed)],
          jobs := paid.jobs[claim := paid.jobs[claim].(status := Done, attempts := paid.jobs[claim].attempts + 1)])
  }

  /** After an error, including a lost commit reply: mark for retry unless the claim turns out confirmed. */
  function Retry(s: State, claim: Id, now: int): State {
    if claim !in s.grants || claim !in s.jobs || s.grants[claim].status == Confirmed then s
    else s.(grants := s.grants[claim := s.grants[claim].(status := Recovering)],
            jobs := s.jobs[claim := Job(Retrying, s.jobs[claim].attempts + 1, now + 10)])
  }
}
