/** The grant pipeline over every interleaving of registrations, stale or repeated pages, crashes and lost replies. */
module AdmissionRuns {
  import opened Numbers
  import opened Wrappers
  import opened Admission

  // ------------------------------------------------------------- invariant

  predicate Rivals(r: Receipt, q: Receipt) { r.user == q.user || r.operation == q.operation || r.subject == q.subject }

  /** Ordinals without a gap; users, operations and subjects all distinct. */
  ghost predicate ReceiptsOk(users: map<User, Account>, legacy: set<User>, counter: int, receipts: map<int, Receipt>) {
    && 0 <= counter <= MAX_INT64
    && (forall o :: o in receipts <==> 1 <= o <= counter)
    && (forall o :: o in receipts ==>
          receipts[o].ordinal == o && receipts[o].user in users && receipts[o].user !in legacy)
    && (forall o, p :: o in receipts && p in receipts && o != p ==> !Rivals(receipts[o], receipts[p]))
  }

  ghost predicate HasReceipt(receipts: map<int, Receipt>, u: User) {
    exists o :: o in receipts && receipts[o].user == u
  }

  ghost predicate UsersOk(users: map<User, Account>, legacy: set<User>, receipts: map<int, Receipt>) {
    legacy <= users.Keys && forall u :: u in users && u !in legacy ==> HasReceipt(receipts, u)
  }

  /** No two accounts are linked to the same subject. */
  ghost predicate SubjectsOk(users: map<User, Account>) {
    forall u, v :: u in users && v in users && users[u].subject.Some? && users[u].subject == users[v].subject ==> u == v
  }

  ghost predicate Genuine(receipts: map<int, Receipt>, page: seq<Receipt>) {
    forall i :: 0 <= i < |page| ==> page[i].ordinal in receipts && page[i] == receipts[page[i].ordinal]
  }

  ghost predicate Consecutive(page: seq<Receipt>, after: int) {
    forall i :: 0 <= i < |page| ==> page[i].ordinal == after + 1 + i
  }

  ghost predicate PageOk(receipts: map<int, Receipt>, p: Page) {
    && p.after >= 0 && |p.receipts| <= 100 && p.nextCursor == p.after + |p.receipts| && Consecutive(p.receipts, p.after)
    && Genuine(receipts, p.receipts)
  }

  ghost predicate PagesOk(receipts: map<int, Receipt>, pages: set<Page>) {
    forall p :: p in pages ==> PageOk(receipts, p)
  }

  ghost predicate InboxOk(counter: int, receipts: map<int, Receipt>, cursor: int, inbox: map<int, Receipt>) {
    && 0 <= cursor <= counter
    && (forall o :: o in inbox <==> 1 <= o <= cursor)
    && (forall o :: o in inbox ==> o in receipts && inbox[o] == receipts[o])
  }

  ghost predicate HasGrant(grants: map<Id, Grant>, o: int) { exists c :: c in grants && grants[c].ordinal == o }

  ghost predicate GrantsOk(inbox: map<int, Receipt>, grants: map<Id, Grant>, jobs: map<Id, Job>) {
    && jobs.Keys == grants.Keys
    && (forall c :: c in grants ==> grants[c].ordinal in inbox && grants[c].user == inbox[grants[c].ordinal].user)
    && (forall c, d :: c in grants && d in grants && c != d ==>
          grants[c].ordinal != grants[d].ordinal && grants[c].user != grants[d].user)
    && (forall o :: o in inbox ==> HasGrant(grants, o))
  }

  ghost predicate IssuedTo(grants: map<Id, Grant>, issuances: map<Id, int>, u: User) {
    exists c :: c in issuances && c in grants && grants[c].user == u
  }

  /** An issuance exists exactly for the confirmed claims and is the one ledger entry of its user. */
  ghost predicate MoneyOk(grants: map<Id, Grant>, jobs: map<Id, Job>, issuances: map<Id, int>, ledger: map<User, int>) {
    StatusesOk(grants, jobs, issuances) && LedgerOk(grants, issuances, ledger)
  }

  ghost predicate StatusesOk(grants: map<Id, Grant>, jobs: map<Id, Job>, issuances: map<Id, int>) {
    && (forall c :: c in grants ==> (grants[c].status == Confirmed <==> c in issuances))
    && (forall c :: c in jobs ==> (jobs[c].status == Done <==> c in issuances))
  }

  ghost predicate LedgerOk(grants: map<Id, Grant>, issuances: map<Id, int>, ledger: map<User, int>) {
    && issuances.Keys <= grants.Keys
    && (forall c :: c in issuances ==>
          grants[c].user in ledger && ledger[grants[c].user] == issuances[c] && 0 <= issuances[c] <= GRANT)
    && (forall u :: u in ledger ==> IssuedTo(grants, issuances, u))
  }

  ghost predicate SourceOk(s: State) {
    && ReceiptsOk(s.users, s.legacy, s.counter, s.receipts) && UsersOk(s.users, s.legacy, s.receipts)
    && SubjectsOk(s.users)
    && PagesOk(s.receipts, s.pages)
  }

  ghost predicate ClaimsOk(s: State) {
    && InboxOk(s.counter, s.receipts, s.cursor, s.inbox) && GrantsOk(s.inbox, s.grants, s.jobs)
    && MoneyOk(s.grants, s.jobs, s.issuances, s.ledger)
  }

  ghost predicate Inv(s: State) { SourceOk(s) && ClaimsOk(s) }

  function Units(): int -> int { (x: int) => x }

  /** Reserve credit held beyond what the recorded issuances explain. */
  ghost function Unexplained(s: State): int { SumOf(s.reserve, Units()) - SumOf(s.issuances, Units()) }

  ghost predicate Within<K, V>(m: map<K, V>, m': map<K, V>) { forall k :: k in m ==> k in m' && m'[k] == m[k] }

  ghost predicate GrantsAdvance(grants: map<Id, Grant>, grants': map<Id, Grant>) {
    forall c :: c in grants ==>
      && c in grants' && grants'[c].(status := grants[c].status) == grants[c]
      && (grants[c].status == Confirmed ==> grants'[c].status == Confirmed)
  }

  /** Facts that stay: receipts, inbox rows, issuances, and confirmed claims. */
  ghost predicate Extends(s: State, s': State) {
    && s'.legacy == s.legacy && s.counter <= s'.counter && s.cursor <= s'.cursor
    && Within(s.receipts, s'.receipts) && Within(s.inbox, s'.inbox) && Within(s.issuances, s'.issuances)
    && GrantsAdvance(s.grants, s'.grants)
  }

  ghost predicate Sound(s: State, s': State) { Inv(s') && Extends(s, s') && Unexplained(s') == Unexplained(s) }

  lemma SelfSound(s: State)
    requires Inv(s)
    ensures Sound(s, s)
  {
  }

  lemma ExtendsTwice(a: State, b: State, c: State)
    requires Extends(a, b) && Extends(b, c)
    ensures Extends(a, c)
  {
  }

  // ---------------------------------------------------------- registration

  lemma RegisterKeeps(s: State, subject: string, policy: string, newUser: User, operation: string, now: int)
    requires Inv(s) && Register(s, subject, policy, newUser, operation, now).Ok?
    ensures Sound(s, Register(s, subject, policy, newUser, operation, now).value.0)
  {
    if exists u :: Holds(s, u, subject) {
      SelfSound(s);
    } else {
      assert !ReceiptClash(s, operation, newUser, subject);
      assert forall u :: u in s.users ==> !Holds(s, u, subject);
      AddReceipt(s, Receipt(s.counter + 1, operation, newUser, subject, SOURCE, policy, now),
                 Account(Some(subject), true));
    }
  }

  lemma AddReceipt(s: State, r: Receipt, account: Account)
    requires Inv(s) && r.ordinal == s.counter + 1 <= MAX_INT64 && r.user !in s.users
    requires !ReceiptClash(s, r.operation, r.user, r.subject)
    requires forall u :: u in s.users ==> s.users[u].subject != account.subject
    ensures Sound(s, s.(users := s.users[r.user := account], counter := r.ordinal,
                        receipts := s.receipts[r.ordinal := r]))
  {
    var receipts, users := s.receipts[r.ordinal := r], s.users[r.user := account];
    AddKeepsReceipts(s, r, account);
    AddKeepsUsers(s.users, s.legacy, s.receipts, r, account);
    AddKeepsPages(s.receipts, s.pages, r);
    AddKeepsInbox(s.counter, s.receipts, s.cursor, s.inbox, r);
  }

  lemma AddKeepsReceipts(s: State, r: Receipt, account: Account)
    requires ReceiptsOk(s.users, s.legacy, s.counter, s.receipts) && s.legacy <= s.users.Keys
    requires r.ordinal == s.counter + 1 <= MAX_INT64 && r.user !in s.users
    requires !ReceiptClash(s, r.operation, r.user, r.subject)
    ensures ReceiptsOk(s.users[r.user := account], s.legacy, r.ordinal, s.receipts[r.ordinal := r])
  {
    assert forall o :: o in s.receipts ==> !Rivals(s.receipts[o], r) && !Rivals(r, s.receipts[o]);
  }

  lemma AddKeepsUsers(users: map<User, Account>, legacy: set<User>, receipts: map<int, Receipt>, r: Receipt,
                      account: Account)
    requires UsersOk(users, legacy, receipts) && r.ordinal !in receipts
    ensures UsersOk(users[r.user := account], legacy, receipts[r.ordinal := r])
  {
    var receipts' := receipts[r.ordinal := r];
    assert receipts'[r.ordinal].user == r.user;
    forall u | u in users && u !in legacy ensures HasReceipt(receipts', u) {
      var o :| o in receipts && receipts[o].user == u;
      assert receipts'[o].user == u;
    }
  }

  lemma AddKeepsPages(receipts: map<int, Receipt>, pages: set<Page>, r: Receipt)
    requires PagesOk(receipts, pages) && r.ordinal !in receipts
    ensures PagesOk(receipts[r.ordinal := r], pages)
  {
    forall p | p in pages ensures PageOk(receipts[r.ordinal := r], p) { assert PageOk(receipts, p); }
  }

  lemma AddKeepsInbox(counter: int, receipts: map<int, Receipt>, cursor: int, inbox: map<int, Receipt>, r: Receipt)
    requires InboxOk(counter, receipts, cursor, inbox) && r.ordinal == counter + 1
    ensures InboxOk(r.ordinal, receipts[r.ordinal := r], cursor, inbox)
  {
  }

  lemma ChangeKeeps(s: State, user: User, account: Account)
    requires Inv(s)
    ensures Sound(s, ChangeAccount(s, user, account))
  {
    SelfSound(s);
    if ChangeAccount(s, user, account) != s {
      assert account.subject.Some? ==> forall u :: u in s.users && u != user ==> !Holds(s, u, account.subject.value);
      ReplaceKeeps(s.users, s.legacy, s.counter, s.receipts, user, account);
    }
  }

  lemma ReplaceKeeps(users: map<User, Account>, legacy: set<User>, counter: int, receipts: map<int, Receipt>,
                     user: User, account: Account)
    requires ReceiptsOk(users, legacy, counter, receipts) && UsersOk(users, legacy, receipts) && SubjectsOk(users)
    requires user in users
    requires forall u :: u in users && u != user && account.subject.Some? ==> users[u].subject != account.subject
    ensures ReceiptsOk(users[user := account], legacy, counter, receipts)
    ensures UsersOk(users[user := account], legacy, receipts) && SubjectsOk(users[user := account])
  {
  }

  // ----------------------------------------------------------------- pages

  lemma {:induction false} FollowingExact(receipts: map<int, Receipt>, after: int, n: nat)
    requires forall o :: o in receipts ==> receipts[o].ordinal == o
    ensures var page := Following(receipts, after, n);
            && |page| <= n && Consecutive(page, after) && Genuine(receipts, page)
            && (|page| < n ==> after + 1 + |page| !in receipts)
    decreases n
  {
    if n > 0 && after + 1 in receipts {
      FollowingExact(receipts, after + 1, n - 1);
      var page, rest := Following(receipts, after, n), Following(receipts, after + 1, n - 1);
      forall i | 0 <= i < |page| ensures page[i].ordinal == after + 1 + i && page[i].ordinal in receipts
          && page[i] == receipts[page[i].ordinal] {
        if i > 0 { assert page[i] == rest[i - 1]; }
      }
    }
  }

  /** The query: receipts after the cursor in order of their ordinals, up to the limit. */
  ghost predicate Selects(receipts: map<int, Receipt>, after: int, limit: nat, page: seq<Receipt>) {
    && |page| <= limit && Genuine(receipts, page)
    && (forall i :: 0 <= i < |page| ==> after < page[i].ordinal)
    && (forall i, j :: 0 <= i < j < |page| ==> page[i].ordinal < page[j].ordinal)
    && (forall o :: o in receipts && after < o ==>
          (exists i :: 0 <= i < |page| && page[i].ordinal == o)
              || (|page| == limit && forall i :: 0 <= i < |page| ==> page[i].ordinal < o))
  }

  /** Without gaps at the source, what is selected is consecutive. */
  lemma {:induction false} SelectedAt(counter: int, receipts: map<int, Receipt>, after: int, limit: nat,
                                      page: seq<Receipt>, i: nat)
    requires (forall o :: o in receipts <==> 1 <= o <= counter) && after >= 0 && Selects(receipts, after, limit, page)
    requires i < |page|
    ensures page[i].ordinal == after + 1 + i
  {
    if i > 0 { SelectedAt(counter, receipts, after, limit, page, i - 1); }
    var o := after + 1 + i;
    if page[i].ordinal > o {
      assert o in receipts;
      var k :| 0 <= k < |page| && page[k].ordinal == o;
    }
  }

  /** The query answers exactly the receipts that follow the cursor one by one. */
  lemma FollowingSelected(s: State, after: int, limit: nat, page: seq<Receipt>)
    requires ReceiptsOk(s.users, s.legacy, s.counter, s.receipts) && after >= 0
    ensures Selects(s.receipts, after, limit, page) <==> page == Following(s.receipts, after, limit)
  {
    var found := Following(s.receipts, after, limit);
    FollowingExact(s.receipts, after, limit);
    FollowingComplete(s, after, limit);
    if Selects(s.receipts, after, limit, page) {
      SelectedConsecutive(s.counter, s.receipts, after, limit, page);
      SameLength(s.receipts, after, limit, page, found);
      forall i | 0 <= i < |page| ensures page[i] == found[i] { assert page[i].ordinal == found[i].ordinal; }
    }
  }

  lemma SelectedConsecutive(counter: int, receipts: map<int, Receipt>, after: int, limit: nat, page: seq<Receipt>)
    requires (forall o :: o in receipts <==> 1 <= o <= counter) && after >= 0 && Selects(receipts, after, limit, page)
    ensures Consecutive(page, after)
  {
    forall i | 0 <= i < |page| ensures page[i].ordinal == after + 1 + i {
      SelectedAt(counter, receipts, after, limit, page, i);
    }
  }

  lemma SameLength(receipts: map<int, Receipt>, after: int, limit: nat, page: seq<Receipt>, found: seq<Receipt>)
    requires Selects(receipts, after, limit, page) && Consecutive(page, after) && |found| <= limit
    requires Consecutive(found, after) && Genuine(receipts, found)
    requires |found| < limit ==> after + 1 + |found| !in receipts
    ensures |page| == |found|
  {
    PageReaches(receipts, after, page);
    PageReaches(receipts, after, found);
    assert |page| < |found| ==> Stored(receipts, after, |page|);
    assert |found| < |page| ==> Stored(receipts, after, |found|);
  }

  predicate Stored(receipts: map<int, Receipt>, after: int, i: nat) { after + 1 + i in receipts }

  lemma PageReaches(receipts: map<int, Receipt>, after: int, page: seq<Receipt>)
    requires Consecutive(page, after) && Genuine(receipts, page)
    ensures forall i: nat :: i < |page| ==> Stored(receipts, after, i)
  {
    forall i: nat | i < |page| ensures Stored(receipts, after, i) { assert page[i].ordinal in receipts; }
  }

  lemma FollowingComplete(s: State, after: int, limit: nat)
    requires ReceiptsOk(s.users, s.legacy, s.counter, s.receipts) && after >= 0
    ensures Selects(s.receipts, after, limit, Following(s.receipts, after, limit))
  {
    var page := Following(s.receipts, after, limit);
    FollowingExact(s.receipts, after, limit);
    forall o | o in s.receipts && after < o
      ensures (exists i :: 0 <= i < |page| && page[i].ordinal == o)
          || (|page| == limit && forall i :: 0 <= i < |page| ==> page[i].ordinal < o)
    {
      if o <= after + |page| { assert page[o - after - 1].ordinal == o; }
    }
  }

  lemma ReadKeeps(s: State, after: int, limit: nat)
    requires Inv(s) && ReadPage(s, after, limit).Ok?
    ensures Sound(s, s.(pages := s.pages + {ReadPage(s, after, limit).value}))
  {
    FollowingExact(s.receipts, after, limit);
    SelfSound(s);
    AddPage(s.receipts, s.pages, ReadPage(s, after, limit).value);
  }

  lemma AddPage(receipts: map<int, Receipt>, pages: set<Page>, page: Page)
    requires PagesOk(receipts, pages) && PageOk(receipts, page)
    ensures PagesOk(receipts, pages + {page})
  {
  }

  // ---------------------------------------------------------------- ingest

  /** The next receipt finds no rival row: users, operations and ordinals are already distinct at the source. */
  lemma NoClash(s: State, r: Receipt)
    requires Inv(s) && s.cursor + 1 in s.receipts && r == s.receipts[s.cursor + 1]
    ensures r.ordinal == s.cursor + 1 && r.ordinal !in s.inbox && !InboxClash(s, r)
    ensures forall c :: c in s.grants ==> s.grants[c].ordinal != r.ordinal && s.grants[c].user != r.user
  {
    forall o | o in s.inbox ensures !Rivals(s.inbox[o], r) { assert s.inbox[o] == s.receipts[o]; }
  }

  lemma NewInbox(counter: int, receipts: map<int, Receipt>, cursor: int, inbox: map<int, Receipt>, r: Receipt)
    requires InboxOk(counter, receipts, cursor, inbox) && cursor < counter && r.ordinal == cursor + 1
    requires r.ordinal in receipts && r == receipts[r.ordinal]
    ensures InboxOk(counter, receipts, cursor + 1, inbox[r.ordinal := r]) && Within(inbox, inbox[r.ordinal := r])
  {
  }

  lemma NewGrant(inbox: map<int, Receipt>, grants: map<Id, Grant>, jobs: map<Id, Job>, r: Receipt, claim: Id, job: Job)
    requires GrantsOk(inbox, grants, jobs) && r.ordinal !in inbox && claim !in grants
    requires forall c :: c in grants ==> grants[c].ordinal != r.ordinal && grants[c].user != r.user
    ensures GrantsOk(inbox[r.ordinal := r], grants[claim := Grant(r.user, r.ordinal, Waiting)], jobs[claim := job])
  {
    var grants' := grants[claim := Grant(r.user, r.ordinal, Waiting)];
    assert grants'[claim].ordinal == r.ordinal;
    forall o | o in inbox ensures HasGrant(grants', o) {
      var c :| c in grants && grants[c].ordinal == o;
      assert grants'[c].ordinal == o;
    }
  }

  lemma NewClaimMoney(grants: map<Id, Grant>, jobs: map<Id, Job>, issuances: map<Id, int>, ledger: map<User, int>,
                      claim: Id, g: Grant, job: Job)
    requires MoneyOk(grants, jobs, issuances, ledger) && claim !in grants && g.status == Waiting
    requires job.status == Pending
    ensures MoneyOk(grants[claim := g], jobs[claim := job], issuances, ledger)
  {
    IssuedStays(grants, grants[claim := g], issuances, issuances, ledger.Keys);
  }

  lemma IngestOneKeeps(s: State, r: Receipt, claim: Id, now: int)
    requires Inv(s) && r.ordinal in s.receipts && r == s.receipts[r.ordinal] && IngestOne(s, r, claim, now).Ok?
    ensures Sound(s, IngestOne(s, r, claim, now).value)
    ensures IngestOne(s, r, claim, now).value.cursor == Max(s.cursor, r.ordinal)
  {
    SelfSound(s);
    if r.ordinal > s.cursor {
      NoClash(s, r);
      IngestOneForm(s, r, claim, now);
      IngestOneExtends(s, r, claim, now);
      NewInbox(s.counter, s.receipts, s.cursor, s.inbox, r);
      NewGrant(s.inbox, s.grants, s.jobs, r, claim, Job(Pending, 0, now));
      NewClaimMoney(s.grants, s.jobs, s.issuances, s.ledger, claim, Grant(r.user, r.ordinal, Waiting),
                    Job(Pending, 0, now));
    }
  }

  lemma IngestOneForm(s: State, r: Receipt, claim: Id, now: int)
    requires r.ordinal > s.cursor && IngestOne(s, r, claim, now).Ok?
    ensures var s' := IngestOne(s, r, claim, now).value;
            && claim !in s.grants && r.ordinal !in s.inbox
            && s'.inbox == s.inbox[r.ordinal := r] && s'.grants == s.grants[claim := Grant(r.user, r.ordinal, Waiting)]
            && s'.jobs == s.jobs[claim := Job(Pending, 0, now)] && s'.cursor == r.ordinal == s.cursor + 1
            && s'.legacy == s.legacy && s'.users == s.users && s'.counter == s.counter && s'.receipts == s.receipts
            && s'.pages == s.pages
            && s'.issuances == s.issuances && s'.ledger == s.ledger && s'.reserve == s.reserve
  {
  }

  lemma IngestOneExtends(s: State, r: Receipt, claim: Id, now: int)
    requires r.ordinal > s.cursor && IngestOne(s, r, claim, now).Ok?
    ensures Extends(s, IngestOne(s, r, claim, now).value)
  {
    IngestOneForm(s, r, claim, now);
  }

  function Last(receipts: seq<Receipt>, cursor: int): int
    decreases |receipts|
  {
    if receipts == [] then cursor else Last(receipts[1..], Max(cursor, receipts[0].ordinal))
  }

  lemma GenuineRest(receipts: map<int, Receipt>, receipts': map<int, Receipt>, page: seq<Receipt>)
    requires Genuine(receipts, page) && Within(receipts, receipts') && page != []
    ensures Genuine(receipts', page[1..])
  {
  }

  lemma ConsecutiveRest(page: seq<Receipt>, after: int)
    requires Consecutive(page, after) && page != []
    ensures Consecutive(page[1..], after + 1)
  {
  }

  lemma {:induction false} IngestAllKeeps(s: State, receipts: seq<Receipt>, claims: seq<Id>, now: int)
    requires |claims| == |receipts| && Inv(s) && Genuine(s.receipts, receipts)
    requires IngestAll(s, receipts, claims, now).Ok?
    ensures Sound(s, IngestAll(s, receipts, claims, now).value)
    ensures IngestAll(s, receipts, claims, now).value.cursor == Last(receipts, s.cursor)
    decreases |receipts|
  {
    if receipts == [] {
      SelfSound(s);
    } else {
      var next := IngestOne(s, receipts[0], claims[0], now).value;
      IngestOneKeeps(s, receipts[0], claims[0], now);
      GenuineRest(s.receipts, next.receipts, receipts);
      IngestAllKeeps(next, receipts[1..], claims[1..], now);
      ExtendsTwice(s, next, IngestAll(s, receipts, claims, now).value);
    }
  }

  lemma {:induction false} LastOfPage(receipts: seq<Receipt>, after: int, cursor: int)
    requires Consecutive(receipts, after)
    ensures Last(receipts, cursor) == if receipts == [] then cursor else Max(cursor, after + |receipts|)
    decreases |receipts|
  {
    if receipts != [] {
      ConsecutiveRest(receipts, after);
      LastOfPage(receipts[1..], after + 1, Max(cursor, receipts[0].ordinal));
    }
  }

  /** Whenever a page that was once read arrives, the cursor ends at the later of where it was and where the page
      ends. */
  lemma IngestKeeps(s: State, page: Page, claims: seq<Id>, maintenance: bool, now: int)
    requires Inv(s) && page in s.pages && |claims| == |page.receipts| && Ingest(s, page, claims, maintenance, now).Ok?
    ensures Sound(s, Ingest(s, page, claims, maintenance, now).value)
    ensures Ingest(s, page, claims, maintenance, now).value.cursor == Max(s.cursor, page.nextCursor)
  {
    IngestForm(s, page, claims, maintenance, now);
    RowsKeep(s, page, claims, now);
  }

  lemma RowsKeep(s: State, page: Page, claims: seq<Id>, now: int)
    requires Inv(s) && page in s.pages && |claims| == |page.receipts| && page.after <= s.cursor
    requires IngestAll(s, page.receipts, claims, now).Ok?
    ensures Sound(s, IngestAll(s, page.receipts, claims, now).value)
    ensures IngestAll(s, page.receipts, claims, now).value.cursor == Max(s.cursor, page.nextCursor)
  {
    PageEnds(s.receipts, s.pages, page, s.cursor);
    IngestAllKeeps(s, page.receipts, claims, now);
  }

  lemma PageEnds(receipts: map<int, Receipt>, pages: set<Page>, page: Page, cursor: int)
    requires PagesOk(receipts, pages) && page in pages && page.after <= cursor
    ensures Genuine(receipts, page.receipts) && Last(page.receipts, cursor) == Max(cursor, page.nextCursor)
  {
    assert PageOk(receipts, page);
    LastOfPage(page.receipts, page.after, cursor);
  }

  lemma IngestForm(s: State, page: Page, claims: seq<Id>, maintenance: bool, now: int)
    requires |claims| == |page.receipts| && Ingest(s, page, claims, maintenance, now).Ok?
    ensures page.after <= s.cursor
    ensures Ingest(s, page, claims, maintenance, now) == IngestAll(s, page.receipts, claims, now)
  {
  }

  ghost predicate FreshClaims(s: State, claims: seq<Id>) {
    && (forall i :: 0 <= i < |claims| ==> claims[i] !in s.grants)
    && (forall i, j :: 0 <= i < j < |claims| ==> claims[i] != claims[j])
  }

  lemma FreshRest(s: State, r: Receipt, claims: seq<Id>, now: int)
    requires claims != [] && FreshClaims(s, claims) && IngestOne(s, r, claims[0], now).Ok?
    ensures FreshClaims(IngestOne(s, r, claims[0], now).value, claims[1..])
  {
  }

  lemma IngestOneSucceeds(s: State, r: Receipt, claim: Id, now: int)
    requires Inv(s) && r.ordinal in s.receipts && r == s.receipts[r.ordinal] && r.ordinal <= s.cursor + 1
    requires claim !in s.grants
    ensures IngestOne(s, r, claim, now).Ok?
  {
    if r.ordinal == s.cursor + 1 { NoClash(s, r); }
  }

  /** The rows of a page within reach of the cursor are never refused: only an id already taken could stop them. */
  lemma {:induction false} IngestAllSucceeds(s: State, receipts: seq<Receipt>, claims: seq<Id>, now: int, after: int)
    requires Inv(s) && |claims| == |receipts| && Genuine(s.receipts, receipts) && Consecutive(receipts, after)
    requires after <= s.cursor && FreshClaims(s, claims)
    ensures IngestAll(s, receipts, claims, now).Ok?
    decreases |receipts|
  {
    if receipts != [] {
      FirstTaken(s, receipts, claims, now, after);
      var next := IngestOne(s, receipts[0], claims[0], now).value;
      IngestAllSucceeds(next, receipts[1..], claims[1..], now, after + 1);
    }
  }

  /** With the first row taken, the rest is again a page within reach. */
  lemma FirstTaken(s: State, receipts: seq<Receipt>, claims: seq<Id>, now: int, after: int)
    requires Inv(s) && |claims| == |receipts| > 0 && Genuine(s.receipts, receipts) && Consecutive(receipts, after)
    requires after <= s.cursor && FreshClaims(s, claims)
    ensures IngestOne(s, receipts[0], claims[0], now).Ok?
    ensures var next := IngestOne(s, receipts[0], claims[0], now).value;
            && Inv(next) && after + 1 <= next.cursor && FreshClaims(next, claims[1..])
            && Genuine(next.receipts, receipts[1..]) && Consecutive(receipts[1..], after + 1)
  {
    IngestOneSucceeds(s, receipts[0], claims[0], now);
    IngestOneKeeps(s, receipts[0], claims[0], now);
    GenuineRest(s.receipts, IngestOne(s, receipts[0], claims[0], now).value.receipts, receipts);
    ConsecutiveRest(receipts, after);
    FreshRest(s, receipts[0], claims, now);
  }

  /** Exactly when a page that was once read is ingested: no maintenance, the cursor has reached it, and its receipts
      are well formed. */
  lemma IngestExactly(s: State, page: Page, claims: seq<Id>, maintenance: bool, now: int)
    requires Inv(s) && page in s.pages && |claims| == |page.receipts| && FreshClaims(s, claims)
    ensures Ingest(s, page, claims, maintenance, now).Ok? <==>
              && !maintenance && page.after <= s.cursor
              && forall i :: 0 <= i < |page.receipts| ==> WellFormed(page.receipts[i])
  {
    assert PageOk(s.receipts, page);
    PageDistinct(s, page);
    if page.after <= s.cursor { IngestAllSucceeds(s, page.receipts, claims, now, page.after); }
  }

  lemma PageDistinct(s: State, page: Page)
    requires ReceiptsOk(s.users, s.legacy, s.counter, s.receipts) && PageOk(s.receipts, page)
    ensures ValidPage(page, 100) <==> forall i :: 0 <= i < |page.receipts| ==> WellFormed(page.receipts[i])
  {
    var rows := page.receipts;
    forall i, j | 0 <= i < j < |rows| ensures rows[i].user != rows[j].user && rows[i].operation != rows[j].operation {
      assert rows[i].ordinal != rows[j].ordinal;
      assert !Rivals(s.receipts[rows[i].ordinal], s.receipts[rows[j].ordinal]);
    }
  }

  /** So a malformed receipt in front of the cursor is never passed. */
  lemma MalformedStops(s: State, page: Page, claims: seq<Id>, maintenance: bool, now: int)
    requires Inv(s) && page in s.pages && |claims| == |page.receipts| && Ingest(s, page, claims, maintenance, now).Ok?
    requires s.cursor + 1 in s.receipts && !WellFormed(s.receipts[s.cursor + 1])
    ensures Ingest(s, page, claims, maintenance, now).value.cursor == s.cursor
  {
    IngestKeeps(s, page, claims, maintenance, now);
    assert PageOk(s.receipts, page);
    StopsBefore(s.receipts, page, s.cursor);
  }

  lemma StopsBefore(receipts: map<int, Receipt>, page: Page, cursor: int)
    requires PageOk(receipts, page) && ValidPage(page, 100) && page.after <= cursor
    requires cursor + 1 in receipts && !WellFormed(receipts[cursor + 1])
    ensures page.nextCursor <= cursor
  {
    AllWellFormed(receipts, page, cursor + 1);
  }

  lemma AllWellFormed(receipts: map<int, Receipt>, page: Page, o: int)
    requires PageOk(receipts, page) && ValidPage(page, 100)
    ensures page.after < o <= page.nextCursor ==> o in receipts && WellFormed(receipts[o])
  {
    if page.after < o <= page.nextCursor { assert page.receipts[o - page.after - 1].ordinal == o; }
  }

  /** A page wholly at or below the cursor is replayed without any effect. */
  lemma {:induction false} ReplayIsNoOp(s: State, receipts: seq<Receipt>, claims: seq<Id>, now: int)
    requires Inv(s) && |claims| == |receipts| && Genuine(s.receipts, receipts)
    requires forall i :: 0 <= i < |receipts| ==> receipts[i].ordinal <= s.cursor
    ensures IngestAll(s, receipts, claims, now) == Ok(s)
    decreases |receipts|
  {
    if receipts != [] {
      GenuineRest(s.receipts, s.receipts, receipts);
      ReplayIsNoOp(s, receipts[1..], claims[1..], now);
    }
  }

  // ---------------------------------------------------------------- grants

  /** An unconfirmed claim's user has never been credited. */
  lemma NotYetCredited(inbox: map<int, Receipt>, grants: map<Id, Grant>, jobs: map<Id, Job>, issuances: map<Id, int>,
                       ledger: map<User, int>, claim: Id)
    requires GrantsOk(inbox, grants, jobs) && MoneyOk(grants, jobs, issuances, ledger) && claim in grants
    requires grants[claim].status != Confirmed
    ensures grants[claim].user !in ledger && claim !in issuances
  {
    assert forall c :: c in grants && grants[c].user == grants[claim].user ==> c == claim;
  }

  lemma StatusGrants(inbox: map<int, Receipt>, grants: map<Id, Grant>, jobs: map<Id, Job>, claim: Id,
                     status: GrantStatus, job: Job)
    requires GrantsOk(inbox, grants, jobs) && claim in grants
    ensures GrantsOk(inbox, grants[claim := grants[claim].(status := status)], jobs[claim := job])
  {
    var grants' := grants[claim := grants[claim].(status := status)];
    forall o | o in inbox ensures HasGrant(grants', o) {
      var c :| c in grants && grants[c].ordinal == o;
      assert grants'[c].ordinal == o;
    }
  }

  lemma OthersElsewhere(inbox: map<int, Receipt>, grants: map<Id, Grant>, jobs: map<Id, Job>, claim: Id)
    requires GrantsOk(inbox, grants, jobs) && claim in grants
    ensures forall c :: c in grants && c != claim ==> grants[c].user != grants[claim].user
  {
  }

  lemma ConfirmMoney(inbox: map<int, Receipt>, grants: map<Id, Grant>, jobs: map<Id, Job>, issuances: map<Id, int>,
                     ledger: map<User, int>,
                     claim: Id, credited: int, job: Job)
    requires GrantsOk(inbox, grants, jobs) && MoneyOk(grants, jobs, issuances, ledger) && claim in grants
    requires grants[claim].status != Confirmed
    requires 0 <= credited <= GRANT && job.status == Done
    ensures MoneyOk(grants[claim := grants[claim].(status := Confirmed)], jobs[claim := job],
                    issuances[claim := credited], ledger[grants[claim].user := credited])
  {
    OthersElsewhere(inbox, grants, jobs, claim);
    ConfirmLedger(grants, issuances, ledger, claim, credited);
  }

  lemma ConfirmLedger(grants: map<Id, Grant>, issuances: map<Id, int>, ledger: map<User, int>, claim: Id, credited: int)
    requires LedgerOk(grants, issuances, ledger) && claim in grants && 0 <= credited <= GRANT
    requires forall c :: c in grants && c != claim ==> grants[c].user != grants[claim].user
    ensures LedgerOk(grants[claim := grants[claim].(status := Confirmed)], issuances[claim := credited],
                     ledger[grants[claim].user := credited])
  {
    var grants', issuances' := grants[claim := grants[claim].(status := Confirmed)], issuances[claim := credited];
    assert claim in issuances' && grants'[claim].user == grants[claim].user;
    IssuedStays(grants, grants', issuances, issuances', ledger.Keys);
  }

  lemma ConfirmForm(s: State, claim: Id, credited: int)
    requires claim in s.grants && claim in s.jobs && s.grants[claim].user !in s.ledger
    ensures var s' := Confirm(s, claim, credited); var u := s.grants[claim].user;
            && s'.grants == s.grants[claim := s.grants[claim].(status := Confirmed)]
            && s'.jobs == s.jobs[claim := Job(Done, s.jobs[claim].attempts + 1, s.jobs[claim].nextAt)]
            && s'.issuances == s.issuances[claim := credited] && s'.ledger == s.ledger[u := credited]
            && s'.reserve == s.reserve[u := (if u in s.reserve then s.reserve[u] else 0) + credited]
            && s'.legacy == s.legacy && s'.users == s.users && s'.counter == s.counter && s'.receipts == s.receipts
            && s'.cursor == s.cursor && s'.inbox == s.inbox && s'.pages == s.pages
  {
  }

  lemma ConfirmExtends(s: State, claim: Id, credited: int)
    requires claim in s.grants && claim in s.jobs && s.grants[claim].user !in s.ledger && claim !in s.issuances
    ensures Extends(s, Confirm(s, claim, credited))
  {
    ConfirmForm(s, claim, credited);
  }

  lemma ConfirmConserves(s: State, claim: Id, credited: int)
    requires claim in s.grants && claim in s.jobs && s.grants[claim].user !in s.ledger && claim !in s.issuances
    ensures Unexplained(Confirm(s, claim, credited)) == Unexplained(s)
  {
    ConfirmForm(s, claim, credited);
    var u := s.grants[claim].user;
    SumOfUpdate(s.reserve, Units(), u, (if u in s.reserve then s.reserve[u] else 0) + credited);
    SumOfUpdate(s.issuances, Units(), claim, credited);
  }

  lemma ConfirmKeeps(s: State, claim: Id, credited: int)
    requires Inv(s) && claim in s.grants && s.grants[claim].status != Confirmed && 0 <= credited <= GRANT
    ensures claim in s.jobs && Sound(s, Confirm(s, claim, credited))
  {
    SelfSound(s);
    NotYetCredited(s.inbox, s.grants, s.jobs, s.issuances, s.ledger, claim);
    ConfirmForm(s, claim, credited);
    ConfirmExtends(s, claim, credited);
    var job := Job(Done, s.jobs[claim].attempts + 1, s.jobs[claim].nextAt);
    StatusGrants(s.inbox, s.grants, s.jobs, claim, Confirmed, job);
    ConfirmMoney(s.inbox, s.grants, s.jobs, s.issuances, s.ledger, claim, credited, job);
    ConfirmConserves(s, claim, credited);
  }

  lemma RetryMoney(grants: map<Id, Grant>, jobs: map<Id, Job>, issuances: map<Id, int>, ledger: map<User, int>,
                   claim: Id, job: Job)
    requires MoneyOk(grants, jobs, issuances, ledger) && claim in grants && grants[claim].status != Confirmed
    requires job.status != Done
    ensures MoneyOk(grants[claim := grants[claim].(status := Recovering)], jobs[claim := job], issuances, ledger)
  {
    IssuedStays(grants, grants[claim := grants[claim].(status := Recovering)], issuances, issuances, ledger.Keys);
  }

  lemma IssuedStays(grants: map<Id, Grant>, grants': map<Id, Grant>, issuances: map<Id, int>, issuances': map<Id, int>,
                    users: set<User>)
    requires forall v :: v in users ==> IssuedTo(grants, issuances, v)
    requires forall c :: c in grants ==> c in grants' && grants'[c].user == grants[c].user
    requires forall c :: c in issuances ==> c in issuances'
    ensures forall v :: v in users ==> IssuedTo(grants', issuances', v)
  {
    forall v | v in users ensures IssuedTo(grants', issuances', v) {
      var c :| c in issuances && c in grants && grants[c].user == v;
      assert c in issuances' && grants'[c].user == v;
    }
  }

  lemma RetryExtends(s: State, claim: Id, now: int)
    ensures Extends(s, Retry(s, claim, now))
  {
  }

  lemma RetryForm(s: State, claim: Id, now: int)
    requires claim in s.grants && claim in s.jobs && s.grants[claim].status != Confirmed
    ensures var s' := Retry(s, claim, now);
            && s'.grants == s.grants[claim := s.grants[claim].(status := Recovering)]
            && s'.jobs == s.jobs[claim := Job(Retrying, s.jobs[claim].attempts + 1, now + 10)]
            && s' == s.(grants := s'.grants, jobs := s'.jobs)
  {
  }

  lemma RetryMarks(s: State, claim: Id, now: int)
    requires Inv(s) && claim in s.grants && claim in s.jobs && s.grants[claim].status != Confirmed
    ensures Inv(Retry(s, claim, now)) && Unexplained(Retry(s, claim, now)) == Unexplained(s)
  {
    RetryForm(s, claim, now);
    var job := Job(Retrying, s.jobs[claim].attempts + 1, now + 10);
    StatusGrants(s.inbox, s.grants, s.jobs, claim, Recovering, job);
    RetryMoney(s.grants, s.jobs, s.issuances, s.ledger, claim, job);
  }

  lemma RetryKeeps(s: State, claim: Id, now: int)
    requires Inv(s)
    ensures Sound(s, Retry(s, claim, now))
  {
    RetryExtends(s, claim, now);
    if claim in s.grants && claim in s.jobs && s.grants[claim].status != Confirmed {
      RetryMarks(s, claim, now);
    } else {
      SelfSound(s);
    }
  }

  // ------------------------------------------------------------------ runs

  /** `GrantStep` with no credit is a transaction that failed or died; `RetryStep` may follow anything, also a commit
      whose reply was lost. */
  datatype Step =
    | RegisterStep(subject: string, policy: string, newUser: User, operation: string, now: int)
    | AccountStep(user: User, account: Account)
    | ReadStep(after: int, limit: nat)
    | IngestStep(page: Page, claims: seq<Id>, maintenance: bool, now: int)
    | GrantStep(claim: Id, now: int, credited: Option<int>)
    | RetryStep(claim: Id, now: int)
    | ReserveStep(user: User, delta: int)

  ghost predicate Enabled(s: State, step: Step) {
    match step
    case IngestStep(page, claims, _, _) => page in s.pages && |claims| == |page.receipts|
    case GrantStep(claim, now, credited) => Due(s, claim, now) && (credited.Some? ==> 0 <= credited.value <= GRANT)
    case _ => true
  }

  ghost function Next(s: State, step: Step): State
    requires Enabled(s, step)
  {
    match step
    case RegisterStep(subject, policy, newUser, operation, now) =>
      (match Register(s, subject, policy, newUser, operation, now) case Ok(done) => done.0 case Err(_) => s)
    case AccountStep(user, account) => ChangeAccount(s, user, account)
    case ReadStep(after, limit) =>
      (match ReadPage(s, after, limit) case Ok(page) => s.(pages := s.pages + {page}) case Err(_) => s)
    case IngestStep(page, claims, maintenance, now) =>
      (match Ingest(s, page, claims, maintenance, now) case Ok(done) => done case Err(_) => s)
    case GrantStep(claim, _, credited) => if credited.Some? then Confirm(s, claim, credited.value) else s
    case RetryStep(claim, now) => Retry(s, claim, now)
    case ReserveStep(user, delta) =>
      if user in s.reserve then s.(reserve := s.reserve[user := s.reserve[user] + delta]) else s
  }

  function Outside(s: State, step: Step): int { if step.ReserveStep? && step.user in s.reserve then step.delta else 0 }

  lemma ReserveKeeps(s: State, user: User, delta: int)
    requires Inv(s) && user in s.reserve
    ensures var s' := s.(reserve := s.reserve[user := s.reserve[user] + delta]);
            Inv(s') && Extends(s, s') && Unexplained(s') == Unexplained(s) + delta
  {
    var s' := s.(reserve := s.reserve[user := s.reserve[user] + delta]);
    SelfSound(s);
    SumOfUpdate(s.reserve, Units(), user, s.reserve[user] + delta);
  }

  lemma SourceStepKeeps(s: State, step: Step)
    requires Inv(s) && (step.RegisterStep? || step.AccountStep? || step.ReadStep?)
    ensures Sound(s, Next(s, step))
  {
    match step
    case RegisterStep(subject, policy, newUser, operation, now) =>
      if Register(s, subject, policy, newUser, operation, now).Ok? {
        RegisterKeeps(s, subject, policy, newUser, operation, now);
      } else {
        SelfSound(s);
      }
    case AccountStep(user, account) => ChangeKeeps(s, user, account);
    case ReadStep(after, limit) =>
      if ReadPage(s, after, limit).Ok? { ReadKeeps(s, after, limit); } else { SelfSound(s); }
  }

  lemma NextKeeps(s: State, step: Step)
    requires Inv(s) && Enabled(s, step)
    ensures Inv(Next(s, step)) && Extends(s, Next(s, step))
    ensures Unexplained(Next(s, step)) == Unexplained(s) + Outside(s, step)
  {
    if step.ReserveStep? {
      ReserveStepKeeps(s, step);
    } else if step.IngestStep? || step.GrantStep? || step.RetryStep? {
      ClaimStepKeeps(s, step);
    } else {
      SourceStepKeeps(s, step);
    }
  }

  lemma ReserveStepKeeps(s: State, step: Step)
    requires Inv(s) && step.ReserveStep?
    ensures Inv(Next(s, step)) && Extends(s, Next(s, step))
    ensures Unexplained(Next(s, step)) == Unexplained(s) + Outside(s, step)
  {
    if step.user in s.reserve { ReserveKeeps(s, step.user, step.delta); } else { SelfSound(s); }
  }

  lemma ClaimStepKeeps(s: State, step: Step)
    requires Inv(s) && Enabled(s, step) && (step.IngestStep? || step.GrantStep? || step.RetryStep?)
    ensures Sound(s, Next(s, step))
  {
    SelfSound(s);
    match step
    case IngestStep(page, claims, maintenance, now) =>
      if Ingest(s, page, claims, maintenance, now).Ok? { IngestKeeps(s, page, claims, maintenance, now); }
    case GrantStep(claim, _, credited) => if credited.Some? { ConfirmKeeps(s, claim, credited.value); }
    case RetryStep(claim, now) => RetryKeeps(s, claim, now);
  }

  ghost predicate Runs(s: State, steps: seq<Step>)
    decreases |steps|
  {
    steps == [] || (Enabled(s, steps[0]) && Runs(Next(s, steps[0]), steps[1..]))
  }

  ghost function Run(s: State, steps: seq<Step>): State
    requires Runs(s, steps)
    decreases |steps|
  {
    if steps == [] then s else Run(Next(s, steps[0]), steps[1..])
  }

  ghost function TotalOutside(s: State, steps: seq<Step>): int
    requires Runs(s, steps)
    decreases |steps|
  {
    if steps == [] then 0 else Outside(s, steps[0]) + TotalOutside(Next(s, steps[0]), steps[1..])
  }

  lemma {:induction false} RunKeeps(s: State, steps: seq<Step>)
    requires Inv(s) && Runs(s, steps)
    ensures Inv(Run(s, steps)) && Extends(s, Run(s, steps))
    ensures Unexplained(Run(s, steps)) == Unexplained(s) + TotalOutside(s, steps)
    decreases |steps|
  {
    if steps != [] {
      NextKeeps(s, steps[0]);
      RunKeeps(Next(s, steps[0]), steps[1..]);
      ExtendsTwice(s, Next(s, steps[0]), Run(s, steps));
    }
  }

  lemma NextStops(s: State, step: Step)
    requires Inv(s) && Enabled(s, step) && s.cursor + 1 in s.receipts && !WellFormed(s.receipts[s.cursor + 1])
    ensures Next(s, step).cursor == s.cursor
  {
    if step.IngestStep? && Ingest(s, step.page, step.claims, step.maintenance, step.now).Ok? {
      MalformedStops(s, step.page, step.claims, step.maintenance, step.now);
    }
  }

  /** A receipt stored malformed holds the whole pipeline: the cursor never moves past it, in any run. */
  lemma {:induction false} MalformedStalls(s: State, steps: seq<Step>)
    requires Inv(s) && Runs(s, steps) && s.cursor + 1 in s.receipts && !WellFormed(s.receipts[s.cursor + 1])
    ensures Run(s, steps).cursor == s.cursor
    decreases |steps|
  {
    if steps != [] {
      NextStops(s, steps[0]);
      NextKeeps(s, steps[0]);
      MalformedStalls(Next(s, steps[0]), steps[1..]);
    }
  }

  /** The store as first deployed: old accounts and their reserves, no receipts yet. */
  ghost predicate IsStart(s: State) {
    && SubjectsOk(s.users)
    && s == State(s.users.Keys, s.users, 0, map[], 0, map[], map[], map[], map[], map[], s.reserve, {})
  }

  lemma StartInv(s: State)
    requires IsStart(s)
    ensures Inv(s) && Unexplained(s) == SumOf(s.reserve, Units())
  {
  }

  /** The first registration: whether its receipt can ever be ingested is decided by what it stored. */
  lemma StallsExactly(start: State, step: Step)
    requires IsStart(start) && step.RegisterStep? && 1 in Next(start, step).receipts
    ensures (exists more :: Runs(Next(start, step), more) && Run(Next(start, step), more).cursor > 0) <==>
              WellFormed(Next(start, step).receipts[1])
  {
    var s := Next(start, step);
    StartInv(start);
    FirstStored(start, step);
    SourceStepKeeps(start, step);
    if WellFormed(s.receipts[1]) {
      var more := FirstIngested(s);
    } else {
      forall more | Runs(s, more) ensures Run(s, more).cursor == 0 { MalformedStalls(s, more); }
    }
  }

  lemma FirstStored(start: State, step: Step)
    requires IsStart(start) && step.RegisterStep?
    ensures var s := Next(start, step); s.cursor == 0 && s.grants == map[] && s.pages == {}
  {
  }

  /** Read and ingested, the first receipt moves the cursor. */
  lemma FirstIngested(s: State) returns (more: seq<Step>)
    requires Inv(s) && s.cursor == 0 && s.grants == map[] && 1 in s.receipts && WellFormed(s.receipts[1])
    ensures Runs(s, more) && Run(s, more).cursor > 0
  {
    var page := Page(0, [s.receipts[1]], 1);
    FirstPage(s.receipts, 0);
    SourceStepKeeps(s, ReadStep(0, 1));
    var s' := Next(s, ReadStep(0, 1));
    PageTaken(s', page);
    TwoSteps(s, ReadStep(0, 1), IngestStep(page, [0], false, 0));
    more := [ReadStep(0, 1), IngestStep(page, [0], false, 0)];
  }

  lemma FirstPage(receipts: map<int, Receipt>, after: int)
    requires after + 1 in receipts
    ensures Following(receipts, after, 1) == [receipts[after + 1]]
  {
    assert Following(receipts, after + 1, 0) == [];
  }

  lemma PageTaken(s: State, page: Page)
    requires Inv(s) && s.cursor == 0 && s.grants == map[] && page in s.pages
    requires page.after == 0 && page.nextCursor == 1 && |page.receipts| == 1 && WellFormed(page.receipts[0])
    ensures Ingest(s, page, [0], false, 0).Ok? && Ingest(s, page, [0], false, 0).value.cursor == 1
  {
    IngestExactly(s, page, [0], false, 0);
    IngestKeeps(s, page, [0], false, 0);
  }

  lemma TwoSteps(s: State, a: Step, b: Step)
    requires Enabled(s, a) && Enabled(Next(s, a), b)
    ensures Runs(s, [a, b]) && Run(s, [a, b]) == Next(Next(s, a), b)
  {
    assert [a, b][1..] == [b];
    assert Run(Next(s, a), [b]) == Next(Next(s, a), b) by { assert [b][1..] == []; }
  }

  /** A registration under a policy version longer than ingest accepts: nothing refuses it, and no run gets past it. */
  lemma LongPolicyStalls(start: State, step: Step, more: seq<Step>)
    requires IsStart(start) && step.RegisterStep? && |step.policy| > 64 && step.subject != ""
    requires step.newUser > 0 && step.newUser !in start.users && !exists u :: Holds(start, u, step.subject)
    requires Runs(Next(start, step), more)
    ensures Register(start, step.subject, step.policy, step.newUser, step.operation, step.now).Ok?
    ensures 1 in Next(start, step).receipts && Run(Next(start, step), more).cursor == 0
  {
    StartInv(start);
    FirstStored(start, step);
    SourceStepKeeps(start, step);
    LongPolicyStored(start, step);
    MalformedStalls(Next(start, step), more);
  }

  lemma LongPolicyStored(start: State, step: Step)
    requires IsStart(start) && step.RegisterStep? && |step.policy| > 64 && step.subject != ""
    requires step.newUser > 0 && step.newUser !in start.users && !exists u :: Holds(start, u, step.subject)
    ensures Register(start, step.subject, step.policy, step.newUser, step.operation, step.now).Ok?
    ensures var s := Next(start, step); 1 in s.receipts && !WellFormed(s.receipts[1])
  {
    assert !ReceiptClash(start, step.operation, step.newUser, step.subject);
  }

  const SOME_SUBJECT := "12345678901234567"
  const SOME_OPERATION := "00000000-0000-4000-8000-000000000000"

  lemma SomeValuesFit()
    ensures WellFormed(Receipt(1, SOME_OPERATION, 7, SOME_SUBJECT, SOURCE, "v1", 0))
  {
    assert Uuid4(SOME_OPERATION);
  }

  /** Such a registration exists: into an empty store, under a version of 65 characters, all else in order. */
  lemma SomeRegistrationStalls() returns (start: State, step: Step)
    ensures IsStart(start) && step.RegisterStep? && |step.policy| == 65 && Fit(step.(policy := "v1"))
    ensures Register(start, step.subject, step.policy, step.newUser, step.operation, step.now).Ok?
    ensures forall more :: Runs(Next(start, step), more) ==> Run(Next(start, step), more).cursor == 0
  {
    start := State({}, map[], 0, map[], 0, map[], map[], map[], map[], map[], map[], {});
    step := RegisterStep(SOME_SUBJECT, seq(65, _ => 'v'), 7, SOME_OPERATION, 0);
    SomeValuesFit();
    EmptyStalls(start, step);
  }

  lemma EmptyStalls(start: State, step: Step)
    requires IsStart(start) && start.users == map[] && step.RegisterStep? && |step.policy| > 64
    requires step.subject != "" && step.newUser > 0
    ensures Register(start, step.subject, step.policy, step.newUser, step.operation, step.now).Ok?
    ensures forall more :: Runs(Next(start, step), more) ==> Run(Next(start, step), more).cursor == 0
  {
    assert forall u :: !Holds(start, u, step.subject);
    LongPolicyStored(start, step);
    forall more | Runs(Next(start, step), more) ensures Run(Next(start, step), more).cursor == 0 {
      LongPolicyStalls(start, step, more);
    }
  }

  ghost predicate ReceiptsWellFormed(receipts: map<int, Receipt>) {
    forall o :: o in receipts ==> WellFormed(receipts[o])
  }

  /** A registration brings a subject, policy, operation and time that ingest will accept. */
  predicate Fit(step: Step) {
    step.RegisterStep? && step.newUser > 0 ==>
      WellFormed(Receipt(1, step.operation, step.newUser, step.subject, SOURCE, step.policy, step.now))
  }

  lemma {:induction false} IngestSameReceipts(s: State, receipts: seq<Receipt>, claims: seq<Id>, now: int)
    requires |claims| == |receipts| && IngestAll(s, receipts, claims, now).Ok?
    ensures IngestAll(s, receipts, claims, now).value.receipts == s.receipts
    decreases |receipts|
  {
    if receipts != [] {
      IngestSameReceipts(IngestOne(s, receipts[0], claims[0], now).value, receipts[1..], claims[1..], now);
    }
  }

  lemma RegisterFit(s: State, subject: string, policy: string, newUser: User, operation: string, now: int)
    requires ReceiptsWellFormed(s.receipts) && Register(s, subject, policy, newUser, operation, now).Ok?
    requires newUser > 0 ==> WellFormed(Receipt(1, operation, newUser, subject, SOURCE, policy, now))
    ensures ReceiptsWellFormed(Register(s, subject, policy, newUser, operation, now).value.0.receipts)
  {
  }

  lemma NextFit(s: State, step: Step)
    requires ReceiptsWellFormed(s.receipts) && Enabled(s, step) && Fit(step)
    ensures ReceiptsWellFormed(Next(s, step).receipts)
  {
    if step.RegisterStep? && Register(s, step.subject, step.policy, step.newUser, step.operation, step.now).Ok? {
      RegisterFit(s, step.subject, step.policy, step.newUser, step.operation, step.now);
    } else if step.IngestStep? && Ingest(s, step.page, step.claims, step.maintenance, step.now).Ok? {
      IngestSameReceipts(s, step.page.receipts, step.claims, step.now);
    }
  }

  lemma {:induction false} FitReceipts(s: State, steps: seq<Step>)
    requires Inv(s) && Runs(s, steps) && ReceiptsWellFormed(s.receipts)
    requires forall i :: 0 <= i < |steps| ==> Fit(steps[i])
    ensures ReceiptsWellFormed(Run(s, steps).receipts)
    decreases |steps|
  {
    if steps != [] {
      NextFit(s, steps[0]);
      NextKeeps(s, steps[0]);
      FitReceipts(Next(s, steps[0]), steps[1..]);
    }
  }

  /** While registrations are fit nothing stalls: outside maintenance every page within reach is ingested. */
  lemma FitNeverStalls(start: State, steps: seq<Step>, page: Page, claims: seq<Id>, now: int)
    requires IsStart(start) && Runs(start, steps) && forall i :: 0 <= i < |steps| ==> Fit(steps[i])
    requires page in Run(start, steps).pages && page.after <= Run(start, steps).cursor
    requires |claims| == |page.receipts| && FreshClaims(Run(start, steps), claims)
    ensures var s := Run(start, steps); var r := Ingest(s, page, claims, false, now);
            r.Ok? && r.value.cursor == Max(s.cursor, page.nextCursor)
  {
    StartInv(start);
    RunKeeps(start, steps);
    FitReceipts(start, steps);
    IngestExactly(Run(start, steps), page, claims, false, now);
    IngestKeeps(Run(start, steps), page, claims, false, now);
  }

  /** Gap-free ordinals and cursor; every new account has exactly one receipt, and one claim once that receipt is
      ingested. */
  lemma OneReceiptOneClaim(start: State, steps: seq<Step>, u: User)
    requires IsStart(start) && Runs(start, steps)
    ensures OneEach(Run(start, steps), u, u in start.users)
  {
    StartInv(start);
    RunKeeps(start, steps);
    EachOne(Run(start, steps), u);
  }

  ghost predicate OneEach(s: State, u: User, isOld: bool) {
    && (forall o :: o in s.receipts <==> 1 <= o <= s.counter) && (forall o :: o in s.inbox <==> 1 <= o <= s.cursor)
    && s.cursor <= s.counter
    && (u in s.users ==> (isOld <==> !HasReceipt(s.receipts, u)))
    && (forall o, p :: o in s.receipts && p in s.receipts && s.receipts[o].user == u && s.receipts[p].user == u ==>
          o == p)
    && (forall c, d :: c in s.grants && d in s.grants && s.grants[c].user == u && s.grants[d].user == u ==> c == d)
    && (forall o :: o in s.inbox ==> HasGrant(s.grants, o))
  }

  lemma EachOne(s: State, u: User)
    requires Inv(s)
    ensures OneEach(s, u, u in s.legacy)
  {
    OneReceipt(s.users, s.legacy, s.counter, s.receipts, u);
    OneGrant(s.inbox, s.grants, s.jobs, u);
  }

  lemma OneReceipt(users: map<User, Account>, legacy: set<User>, counter: int, receipts: map<int, Receipt>, u: User)
    requires ReceiptsOk(users, legacy, counter, receipts) && UsersOk(users, legacy, receipts)
    ensures forall o, p :: o in receipts && p in receipts && receipts[o].user == u && receipts[p].user == u ==> o == p
    ensures u in users ==> (u in legacy <==> !HasReceipt(receipts, u))
  {
    forall o, p | o in receipts && p in receipts && receipts[o].user == u && receipts[p].user == u ensures o == p {
      assert Rivals(receipts[o], receipts[p]);
    }
  }

  lemma OneGrant(inbox: map<int, Receipt>, grants: map<Id, Grant>, jobs: map<Id, Job>, u: User)
    requires GrantsOk(inbox, grants, jobs)
    ensures forall c, d :: c in grants && d in grants && grants[c].user == u && grants[d].user == u ==> c == d
  {
  }

  /** What the reserve gained is the sum of recorded issuances, whatever crashed, repeated or got lost on the way. */
  lemma CreditedIsIssued(start: State, steps: seq<Step>)
    requires IsStart(start) && Runs(start, steps)
    ensures SumOf(Run(start, steps).reserve, Units())
         == SumOf(start.reserve, Units()) + TotalOutside(start, steps) + SumOf(Run(start, steps).issuances, Units())
  {
    StartInv(start);
    RunKeeps(start, steps);
  }

  /** A confirmed claim is never taken up again: no later step can credit it or change its issuance. */
  lemma ConfirmedOnce(s: State, steps: seq<Step>, claim: Id, now: int)
    requires Inv(s) && Runs(s, steps) && claim in s.grants && s.grants[claim].status == Confirmed
    ensures var later := Run(s, steps);
            && claim in s.issuances && claim in later.issuances && later.issuances[claim] == s.issuances[claim]
            && !Due(later, claim, now) && Retry(later, claim, now) == later
  {
    RunKeeps(s, steps);
  }
}
