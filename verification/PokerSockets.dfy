/** The Poker socket registry under every schedule of connect, disconnect and rebind: cmd/momiao/poker_adapter.go. */
module PokerSockets {
  import opened Wrappers

  type Proc = nat
  type EntryId = nat
  type ConnId = string

  datatype Call = Connected | Disconnected

  /** `mutex` is who holds the entry's own lock; `calls` are the domain calls made for it, in order. */
  datatype Entry = Entry(conn: ConnId, table: string, auth: string, claims: bool, order: nat, closed: bool,
                         mutex: Option<Proc>, calls: seq<Call>)

  /** Where a goroutine stands. The registry's own lock is held only inside one step each. */
  datatype Pc =
    | Registering(e: EntryId)                      // connected: entry made and locked, not yet in the registry
    | Connecting(e: EntryId)                       // connected: about to call Connected
    | Failing(e: EntryId)                          // connected: the call failed; about to mark the entry closed
    | Removing(e: EntryId)                         // connected: marked; about to leave the registry
    | Cleaning(e: EntryId)                         // connected: about to call Disconnected
    | Leaving(e: EntryId)                          // about to release the entry's lock
    | Closing(e: EntryId)                          // disconnected: marked and removed; waiting for the entry's lock
    | Parting(e: EntryId)                          // disconnected: lock held; about to call Disconnected
    | Rebinding(rest: seq<EntryId>)                // rebind: about to lock the first entry of rest
    | Checking(e: EntryId, rest: seq<EntryId>)     // rebind: lock held; about to look at closed
    | Rejoining(e: EntryId, rest: seq<EntryId>)    // rebind: seen open; about to call Connected
    | Releasing(e: EntryId, rest: seq<EntryId>)    // rebind: about to release the entry's lock

  datatype State = State(entries: map<EntryId, Entry>, sockets: map<ConnId, EntryId>, next: nat, procs: map<Proc, Pc>)

  const LIMIT: nat := 1024
  const MAX_ORDER: nat := 0xFFFF_FFFF_FFFF_FFFF

  datatype Step =
    | Connect(p: Proc, e: EntryId, conn: ConnId, table: string, auth: string, claims: bool)
    | Disconnect(p: Proc, conn: ConnId, table: string, auth: string)
    | Rebind(p: Proc, table: string, auth: string, picked: seq<EntryId>)
    | Advance(p: Proc, ok: bool)

  predicate Matches(s: State, e: EntryId, table: string, auth: string) {
    && e in s.entries && s.entries[e].conn in s.sockets && s.sockets[s.entries[e].conn] == e
    && s.entries[e].table == table && s.entries[e].auth == auth && s.entries[e].claims && !s.entries[e].closed
  }

  /** The open claiming entries of a table and session, in the order they came. */
  ghost predicate Picks(s: State, table: string, auth: string, picked: seq<EntryId>) {
    && (forall i :: 0 <= i < |picked| ==> picked[i] in s.entries)
    && (forall i, j :: 0 <= i < j < |picked| ==> s.entries[picked[i]].order < s.entries[picked[j]].order)
    && (forall e :: e in picked <==> Matches(s, e, table, auth))
  }

  /** The entry whose lock the next move has to take, if it takes one. */
  function Wants(pc: Pc): Option<EntryId> {
    match pc
    case Closing(e) => Some(e)
    case Rebinding(rest) => if rest == [] then None else Some(rest[0])
    case _ => None
  }

  ghost predicate Enabled(s: State, step: Step) {
    match step
    case Connect(p, e, _, _, _, _) => p !in s.procs && e !in s.entries
    case Disconnect(p, _, _, _) => p !in s.procs
    case Rebind(p, table, auth, picked) => p !in s.procs && Picks(s, table, auth, picked)
    case Advance(p, _) =>
      && p in s.procs
      && (Wants(s.procs[p]).Some? ==>
            Wants(s.procs[p]).value in s.entries && s.entries[Wants(s.procs[p]).value].mutex.None?)
  }

  function Put(s: State, e: EntryId, entry: Entry, p: Proc, pc: Pc): State {
    s.(entries := s.entries[e := entry], procs := s.procs[p := pc])
  }

  function Goto(s: State, p: Proc, pc: Pc): State { s.(procs := s.procs[p := pc]) }

  function Finish(s: State, p: Proc): State { s.(procs := s.procs - {p}) }

  /** Registers a locked entry, or denies it: connection taken, registry full, or the order used up. */
  function RegisterStep(s: State, p: Proc, e: EntryId): State
    requires e in s.entries
  {
    var x := s.entries[e];
    if x.conn in s.sockets || |s.sockets| >= LIMIT || s.next == MAX_ORDER then Goto(s, p, Leaving(e))
    else Put(s, e, x.(order := s.next + 1), p, Connecting(e)).(next := s.next + 1, sockets := s.sockets[x.conn := e])
  }

  /** The next move of one goroutine; `ok` is what the domain call answers, or, for a rebind, that its context still
      lives. */
  function AdvanceStep(s: State, p: Proc, ok: bool): State
    requires p in s.procs
  {
    match s.procs[p]
    case Registering(e) => if e in s.entries then RegisterStep(s, p, e) else Finish(s, p)
    case Connecting(e) =>
      if e in s.entries
        then Put(s, e, s.entries[e].(calls := s.entries[e].calls + [Connected]), p,
                 if ok then Leaving(e) else Failing(e)) else Finish(s, p)
    case Failing(e) => if e in s.entries then Put(s, e, s.entries[e].(closed := true), p, Removing(e)) else Finish(s, p)
    case Removing(e) =>
      if e in s.entries && s.entries[e].conn in s.sockets && s.sockets[s.entries[e].conn] == e
      then Goto(s, p, Cleaning(e)).(sockets := s.sockets - {s.entries[e].conn}) else Goto(s, p, Cleaning(e))
    case Cleaning(e) =>
      if e in s.entries then Put(s, e, s.entries[e].(calls := s.entries[e].calls + [Disconnected]), p, Leaving(e))
      else Finish(s, p)
    case Leaving(e) =>
      if e in s.entries then Finish(Put(s, e, s.entries[e].(mutex := None), p, Leaving(e)), p) else Finish(s, p)
    case Closing(e) =>
      if e in s.entries then Put(s, e, s.entries[e].(mutex := Some(p)), p, Parting(e)) else Finish(s, p)
    case Parting(e) =>
      if e in s.entries then Put(s, e, s.entries[e].(calls := s.entries[e].calls + [Disconnected]), p, Leaving(e))
      else Finish(s, p)
    case Rebinding(rest) =>
      if rest == [] || !ok then Finish(s, p)
      else if rest[0] in s.entries
        then Put(s, rest[0], s.entries[rest[0]].(mutex := Some(p)), p, Checking(rest[0], rest[1..]))
      else Finish(s, p)
    case Checking(e, rest) =>
      if e in s.entries && s.entries[e].closed then Goto(s, p, Releasing(e, rest)) else Goto(s, p, Rejoining(e, rest))
    case Rejoining(e, rest) =>
      if e in s.entries then Put(s, e, s.entries[e].(calls := s.entries[e].calls + [Connected]), p, Releasing(e, rest))
      else Finish(s, p)
    case Releasing(e, rest) =>
      if e in s.entries then Put(s, e, s.entries[e].(mutex := None), p, Rebinding(rest)) else Finish(s, p)
  }

  function DisconnectStep(s: State, p: Proc, conn: ConnId, table: string, auth: string): State {
    if conn in s.sockets && s.sockets[conn] in s.entries then
      var e := s.sockets[conn];
      var x := s.entries[e];
      if x.conn == conn && x.table == table && x.auth == auth
      then Put(s, e, x.(closed := true), p, Closing(e)).(sockets := s.sockets - {conn})
      else s
    else s
  }

  ghost function Next(s: State, step: Step): State
    requires Enabled(s, step)
  {
    match step
    case Connect(p, e, conn, table, auth, claims) =>
      Put(s, e, Entry(conn, table, auth, claims, 0, false, Some(p), []), p, Registering(e))
    case Disconnect(p, conn, table, auth) => DisconnectStep(s, p, conn, table, auth)
    case Rebind(p, _, _, picked) => Goto(s, p, Rebinding(picked))
    case Advance(p, ok) => AdvanceStep(s, p, ok)
  }

  // ------------------------------------------------------------- invariant

  /** The entry whose lock a goroutine holds. */
  function Holds(pc: Pc): Option<EntryId> {
    match pc
    case Registering(e) => Some(e)
    case Connecting(e) => Some(e)
    case Failing(e) => Some(e)
    case Removing(e) => Some(e)
    case Cleaning(e) => Some(e)
    case Leaving(e) => Some(e)
    case Closing(_) => None
    case Parting(e) => Some(e)
    case Rebinding(_) => None
    case Checking(e, _) => Some(e)
    case Rejoining(e, _) => Some(e)
    case Releasing(e, _) => Some(e)
  }

  /** Goroutines bound to call Disconnected for the entry before they end. */
  predicate Owes(pc: Pc, e: EntryId) {
    pc == Closing(e) || pc == Parting(e) || pc == Removing(e) || pc == Cleaning(e)
  }

  /** Goroutines bound to call Connected for the entry next. */
  predicate Joins(pc: Pc, e: EntryId) {
    match pc
    case Registering(x) => x == e
    case Connecting(x) => x == e
    case Rejoining(x, _) => x == e
    case _ => false
  }

  /** Connects first, then disconnects, never back. */
  predicate InOrder(calls: seq<Call>) {
    forall i, j :: 0 <= i < j < |calls| && calls[i] == Disconnected ==> calls[j] == Disconnected
  }

  predicate Ended(calls: seq<Call>) { calls != [] && calls[|calls| - 1] == Disconnected }

  ghost predicate LocksOk(entries: map<EntryId, Entry>, procs: map<Proc, Pc>) {
    && (forall p :: p in procs && Holds(procs[p]).Some? ==>
          Holds(procs[p]).value in entries && entries[Holds(procs[p]).value].mutex == Some(p))
    && (forall p, e :: p in procs && Owes(procs[p], e) ==> e in entries && entries[e].closed)
    && (forall p :: p in procs && procs[p].Rebinding? ==> forall i :: 0 <= i < |procs[p].rest| ==>
          procs[p].rest[i] in entries)
    && (forall p :: p in procs && (procs[p].Checking? || procs[p].Rejoining? || procs[p].Releasing?) ==>
          forall i :: 0 <= i < |procs[p].rest| ==> procs[p].rest[i] in entries)
  }

  ghost predicate Owed(procs: map<Proc, Pc>, e: EntryId) { exists p :: p in procs && Owes(procs[p], e) }

  ghost predicate Joined(procs: map<Proc, Pc>, e: EntryId) { exists p :: p in procs && Joins(procs[p], e) }

  /** A closed entry still owes a Disconnected, or that was its last call and no Connected is on its way. */
  ghost predicate EntryOk(procs: map<Proc, Pc>, e: EntryId, x: Entry) {
    && InOrder(x.calls)
    && (!x.closed ==> Disconnected !in x.calls)
    && (Joined(procs, e) ==> Disconnected !in x.calls)
    && (x.closed ==> Owed(procs, e) || (Ended(x.calls) && !Joined(procs, e)))
  }

  ghost predicate EntriesOk(entries: map<EntryId, Entry>, procs: map<Proc, Pc>) {
    forall e :: e in entries ==> EntryOk(procs, e, entries[e])
  }

  ghost predicate Inv(s: State) {
    LocksOk(s.entries, s.procs) && EntriesOk(s.entries, s.procs) && |s.sockets| <= LIMIT && s.next <= MAX_ORDER
  }

  // ---------------------------------------------------------- preservation

  ghost predicate Moves(procs: map<Proc, Pc>, procs': map<Proc, Pc>, p: Proc) {
    forall q :: q != p ==> (q in procs <==> q in procs') && (q in procs ==> procs'[q] == procs[q])
  }

  predicate OwesAt(procs: map<Proc, Pc>, p: Proc, e: EntryId) { p in procs && Owes(procs[p], e) }

  predicate JoinsAt(procs: map<Proc, Pc>, p: Proc, e: EntryId) { p in procs && Joins(procs[p], e) }

  lemma MoveOwed(procs: map<Proc, Pc>, procs': map<Proc, Pc>, p: Proc, e: EntryId)
    requires Moves(procs, procs', p)
    ensures Owed(procs, e) && (OwesAt(procs, p, e) ==> OwesAt(procs', p, e)) ==> Owed(procs', e)
    ensures OwesAt(procs', p, e) ==> Owed(procs', e)
    ensures Joined(procs', e) && (JoinsAt(procs', p, e) ==> JoinsAt(procs, p, e)) ==> Joined(procs, e)
    ensures JoinsAt(procs, p, e) ==> Joined(procs, e)
  {
    if Owed(procs, e) {
      var q :| q in procs && Owes(procs[q], e);
      assert q != p ==> q in procs' && Owes(procs'[q], e);
    }
    if Joined(procs', e) {
      var q :| q in procs' && Joins(procs'[q], e);
      assert q != p ==> q in procs && Joins(procs[q], e);
    }
  }

  /** An entry the goroutine does not touch. */
  lemma Elsewhere(procs: map<Proc, Pc>, procs': map<Proc, Pc>, p: Proc, e: EntryId, x: Entry)
    requires Moves(procs, procs', p) && EntryOk(procs, e, x)
    requires OwesAt(procs, p, e) ==> OwesAt(procs', p, e)
    requires JoinsAt(procs', p, e) ==> JoinsAt(procs, p, e)
    ensures EntryOk(procs', e, x)
  {
    MoveOwed(procs, procs', p, e);
  }

  /** While one goroutine holds an entry's lock, no other is about to call Connected for it. */
  lemma OnlyHolderJoins(entries: map<EntryId, Entry>, procs: map<Proc, Pc>, p: Proc, e: EntryId)
    requires LocksOk(entries, procs) && p in procs && Holds(procs[p]) == Some(e) && !Joins(procs[p], e)
    ensures !Joined(procs, e)
  {
    forall q | q in procs ensures !Joins(procs[q], e) { JoinerHolds(procs[q], e); }
  }

  lemma JoinerHolds(pc: Pc, e: EntryId)
    ensures Joins(pc, e) ==> Holds(pc) == Some(e)
  {
  }

  lemma AppendDisconnected(calls: seq<Call>)
    requires InOrder(calls)
    ensures InOrder(calls + [Disconnected]) && Ended(calls + [Disconnected])
  {
  }

  lemma AppendConnected(calls: seq<Call>)
    requires Disconnected !in calls
    ensures InOrder(calls + [Connected]) && Disconnected !in calls + [Connected]
  {
  }

  /** The holder's Disconnected ends the entry's calls. */
  lemma Parted(entries: map<EntryId, Entry>, procs: map<Proc, Pc>, p: Proc, e: EntryId)
    requires LocksOk(entries, procs) && EntriesOk(entries, procs) && p in procs
    requires (procs[p] == Parting(e) || procs[p] == Cleaning(e))
    ensures e in entries
    ensures EntryOk(procs[p := Leaving(e)], e, entries[e].(calls := entries[e].calls + [Disconnected]))
  {
    var procs' := procs[p := Leaving(e)];
    assert Owes(procs[p], e);
    OnlyHolderJoins(entries, procs, p, e);
    MoveOwed(procs, procs', p, e);
    assert EntryOk(procs, e, entries[e]);
    AppendDisconnected(entries[e].calls);
  }

  /** A Connected by the holder comes before any Disconnected; if the entry was closed meanwhile, that one is still
      owed. */
  lemma Rejoined(entries: map<EntryId, Entry>, procs: map<Proc, Pc>, p: Proc, e: EntryId, pc: Pc)
    requires LocksOk(entries, procs) && EntriesOk(entries, procs) && p in procs && Joins(procs[p], e)
    requires !procs[p].Registering?
    requires !Joins(pc, e) && !Owes(procs[p], e)
    ensures e in entries
    ensures EntryOk(procs[p := pc], e, entries[e].(calls := entries[e].calls + [Connected]))
  {
    var procs' := procs[p := pc];
    assert Holds(procs[p]) == Some(e);
    assert EntryOk(procs, e, entries[e]);
    MoveOwed(procs, procs', p, e);
    assert Joined(procs, e);
    AppendConnected(entries[e].calls);
  }

  lemma Locks(entries: map<EntryId, Entry>, procs: map<Proc, Pc>, e: EntryId, x: Entry, p: Proc, pc: Pc)
    requires LocksOk(entries, procs) && p in procs && e in entries && x.mutex == Some(p) && Holds(pc) == Some(e)
    requires Holds(procs[p]) == Some(e) || entries[e].mutex.None?
    requires entries[e].closed ==> x.closed
    requires Owes(pc, e) ==> x.closed
    requires (pc.Checking? || pc.Rejoining? || pc.Releasing?) ==> forall i :: 0 <= i < |pc.rest| ==>
              pc.rest[i] in entries
    ensures LocksOk(entries[e := x], procs[p := pc])
  {
    var entries', procs' := entries[e := x], procs[p := pc];
    forall q | q in procs' && Holds(procs'[q]).Some?
      ensures Holds(procs'[q]).value in entries' && entries'[Holds(procs'[q]).value].mutex == Some(q)
    {
      if q != p { assert Holds(procs[q]).value in entries && entries[Holds(procs[q]).value].mutex == Some(q); }
    }
  }

  lemma Unlocks(entries: map<EntryId, Entry>, procs: map<Proc, Pc>, e: EntryId, p: Proc, procs': map<Proc, Pc>)
    requires LocksOk(entries, procs) && p in procs && Holds(procs[p]) == Some(e) && Moves(procs, procs', p)
    requires p in procs' ==> procs'[p].Rebinding? && forall i :: 0 <= i < |procs'[p].rest| ==>
              procs'[p].rest[i] in entries
    ensures e in entries && LocksOk(entries[e := entries[e].(mutex := None)], procs')
  {
    var entries' := entries[e := entries[e].(mutex := None)];
    forall q | q in procs' && Holds(procs'[q]).Some?
      ensures Holds(procs'[q]).value in entries' && entries'[Holds(procs'[q]).value].mutex == Some(q)
    {
      assert q != p;
      assert Holds(procs[q]).value in entries && entries[Holds(procs[q]).value].mutex == Some(q);
    }
  }

  lemma Others(entries: map<EntryId, Entry>, procs: map<Proc, Pc>, e: EntryId, x: Entry, p: Proc, procs': map<Proc, Pc>)
    requires EntriesOk(entries, procs) && Moves(procs, procs', p) && EntryOk(procs', e, x)
    requires forall k: EntryId :: k != e ==>
              (OwesAt(procs, p, k) ==> OwesAt(procs', p, k)) && (JoinsAt(procs', p, k) ==> JoinsAt(procs, p, k))
    ensures EntriesOk(entries[e := x], procs')
  {
    var entries' := entries[e := x];
    forall k | k in entries' ensures EntryOk(procs', k, entries'[k]) {
      if k != e { Elsewhere(procs, procs', p, k, entries[k]); }
    }
  }

  // ----------------------------------------------------------------- steps

  lemma ConnectKeeps(s: State, step: Step)
    requires Inv(s) && step.Connect? && Enabled(s, step)
    ensures Inv(Next(s, step))
  {
    var x := Entry(step.conn, step.table, step.auth, step.claims, 0, false, Some(step.p), []);
    var procs' := s.procs[step.p := Registering(step.e)];
    Others(s.entries, s.procs, step.e, x, step.p, procs');
    var entries' := s.entries[step.e := x];
    forall q | q in procs' && Holds(procs'[q]).Some? ensures Holds(procs'[q]).value in entries'
        && entries'[Holds(procs'[q]).value].mutex == Some(q) {
      if q != step.p { assert Holds(s.procs[q]).value in s.entries; }
    }
  }

  lemma RebindKeeps(s: State, step: Step)
    requires Inv(s) && step.Rebind? && Enabled(s, step)
    ensures Inv(Next(s, step))
  {
    PickKeeps(s.entries, s.procs, s.procs[step.p := Rebinding(step.picked)], step.p);
  }

  /** A goroutine that only looks at the registry, or ends without holding anything. */
  lemma PickKeeps(entries: map<EntryId, Entry>, procs: map<Proc, Pc>, procs': map<Proc, Pc>, p: Proc)
    requires LocksOk(entries, procs) && EntriesOk(entries, procs) && Moves(procs, procs', p)
    requires p in procs ==> procs[p].Rebinding?
    requires p in procs' ==> procs'[p].Rebinding? && forall i :: 0 <= i < |procs'[p].rest| ==>
              procs'[p].rest[i] in entries
    ensures LocksOk(entries, procs') && EntriesOk(entries, procs')
  {
    PickKeepsLocks(entries, procs, procs', p);
    forall k | k in entries ensures EntryOk(procs', k, entries[k]) { Elsewhere(procs, procs', p, k, entries[k]); }
  }

  lemma PickKeepsLocks(entries: map<EntryId, Entry>, procs: map<Proc, Pc>, procs': map<Proc, Pc>, p: Proc)
    requires LocksOk(entries, procs) && Moves(procs, procs', p)
    requires p in procs' ==> procs'[p].Rebinding? && forall i :: 0 <= i < |procs'[p].rest| ==>
              procs'[p].rest[i] in entries
    ensures LocksOk(entries, procs')
  {
  }

  /** Marking and removing is one step under the registry's lock; the Disconnected is owed from then on. */
  lemma DisconnectKeeps(s: State, step: Step)
    requires Inv(s) && step.Disconnect? && Enabled(s, step)
    ensures Inv(Next(s, step))
  {
    if Next(s, step) != s {
      var e := s.sockets[step.conn];
      var procs' := s.procs[step.p := Closing(e)];
      MoveOwed(s.procs, procs', step.p, e);
      assert EntryOk(s.procs, e, s.entries[e]);
      Others(s.entries, s.procs, e, s.entries[e].(closed := true), step.p, procs');
      MarkKeepsLocks(s.entries, s.procs, e, step.p);
    }
  }

  lemma MarkKeepsLocks(entries: map<EntryId, Entry>, procs: map<Proc, Pc>, e: EntryId, p: Proc)
    requires LocksOk(entries, procs) && e in entries && p !in procs
    ensures LocksOk(entries[e := entries[e].(closed := true)], procs[p := Closing(e)])
  {
  }

  lemma RegisteringKeeps(s: State, p: Proc, e: EntryId, ok: bool)
    requires Inv(s) && p in s.procs && s.procs[p] == Registering(e)
    ensures Inv(AdvanceStep(s, p, ok))
  {
    assert Holds(s.procs[p]) == Some(e);
    var s' := AdvanceStep(s, p, ok);
    RegisterMoves(s.entries, s.procs, p, e, s'.entries[e], s'.procs[p]);
    assert s'.entries == s.entries[e := s'.entries[e]];
  }

  lemma RegisterMoves(entries: map<EntryId, Entry>, procs: map<Proc, Pc>, p: Proc, e: EntryId, x: Entry, pc: Pc)
    requires LocksOk(entries, procs) && EntriesOk(entries, procs) && p in procs && procs[p] == Registering(e)
    requires e in entries
    requires x.calls == entries[e].calls && x.closed == entries[e].closed && x.mutex == entries[e].mutex
    requires (pc == Connecting(e) || pc == Leaving(e))
    ensures LocksOk(entries[e := x], procs[p := pc]) && EntriesOk(entries[e := x], procs[p := pc])
  {
    QuietEntry(procs, procs[p := pc], p, e, entries[e], x);
    Others(entries, procs, e, x, p, procs[p := pc]);
    Locks(entries, procs, e, x, p, pc);
  }

  lemma CallKeeps(s: State, p: Proc, ok: bool)
    requires Inv(s) && p in s.procs && (s.procs[p].Connecting? || s.procs[p].Rejoining?)
    ensures Inv(AdvanceStep(s, p, ok))
  {
    var e := s.procs[p].e;
    assert Holds(s.procs[p]) == Some(e);
    var s' := AdvanceStep(s, p, ok);
    Rejoined(s.entries, s.procs, p, e, s'.procs[p]);
    Others(s.entries, s.procs, e, s'.entries[e], p, s'.procs);
    Locks(s.entries, s.procs, e, s'.entries[e], p, s'.procs[p]);
  }

  lemma PartKeeps(s: State, p: Proc, ok: bool)
    requires Inv(s) && p in s.procs && (s.procs[p].Parting? || s.procs[p].Cleaning?)
    ensures Inv(AdvanceStep(s, p, ok))
  {
    var e := s.procs[p].e;
    assert Holds(s.procs[p]) == Some(e);
    var s' := AdvanceStep(s, p, ok);
    Parted(s.entries, s.procs, p, e);
    Others(s.entries, s.procs, e, s'.entries[e], p, s'.procs);
    Locks(s.entries, s.procs, e, s'.entries[e], p, s'.procs[p]);
  }

  lemma FailKeeps(s: State, p: Proc, e: EntryId, ok: bool)
    requires Inv(s) && p in s.procs && s.procs[p] == Failing(e)
    ensures Inv(AdvanceStep(s, p, ok))
  {
    assert Holds(s.procs[p]) == Some(e);
    var s' := AdvanceStep(s, p, ok);
    MoveOwed(s.procs, s'.procs, p, e);
    assert EntryOk(s.procs, e, s.entries[e]);
    Others(s.entries, s.procs, e, s'.entries[e], p, s'.procs);
    Locks(s.entries, s.procs, e, s'.entries[e], p, s'.procs[p]);
  }

  /** Taking the lock, or moving on under it, changes no call. */
  lemma QuietMove(s: State, p: Proc, e: EntryId, x: Entry, pc: Pc)
    requires LocksOk(s.entries, s.procs) && EntriesOk(s.entries, s.procs) && p in s.procs && e in s.entries
    requires x.calls == s.entries[e].calls && x.closed == s.entries[e].closed && x.mutex == Some(p)
    requires Holds(pc) == Some(e)
    requires Holds(s.procs[p]) == Some(e) || s.entries[e].mutex.None?
    requires Owes(s.procs[p], e) ==> Owes(pc, e)
    requires Owes(pc, e) ==> x.closed
    requires Joins(pc, e) ==> !x.closed
    requires forall k: EntryId :: k != e ==> !Owes(s.procs[p], k)
    requires (pc.Checking? || pc.Rejoining? || pc.Releasing?) ==> forall i :: 0 <= i < |pc.rest| ==>
              pc.rest[i] in s.entries
    ensures LocksOk(s.entries[e := x], s.procs[p := pc]) && EntriesOk(s.entries[e := x], s.procs[p := pc])
  {
    QuietEntry(s.procs, s.procs[p := pc], p, e, s.entries[e], x);
    Others(s.entries, s.procs, e, x, p, s.procs[p := pc]);
    Locks(s.entries, s.procs, e, x, p, pc);
  }

  lemma ClosingKeeps(s: State, p: Proc, e: EntryId, ok: bool)
    requires Inv(s) && Enabled(s, Advance(p, ok)) && s.procs[p] == Closing(e)
    ensures Inv(AdvanceStep(s, p, ok))
  {
    assert Owes(s.procs[p], e);
    QuietMove(s, p, e, s.entries[e].(mutex := Some(p)), Parting(e));
  }

  lemma RemovingKeeps(s: State, p: Proc, e: EntryId, ok: bool)
    requires Inv(s) && p in s.procs && s.procs[p] == Removing(e)
    ensures Inv(AdvanceStep(s, p, ok))
  {
    assert Owes(s.procs[p], e) && Holds(s.procs[p]) == Some(e);
    QuietMove(s, p, e, s.entries[e], Cleaning(e));
    assert s.entries[e := s.entries[e]] == s.entries;
  }

  lemma CheckingKeeps(s: State, p: Proc, e: EntryId, rest: seq<EntryId>, ok: bool)
    requires Inv(s) && p in s.procs && s.procs[p] == Checking(e, rest)
    ensures Inv(AdvanceStep(s, p, ok))
  {
    assert Holds(s.procs[p]) == Some(e);
    QuietMove(s, p, e, s.entries[e], if s.entries[e].closed then Releasing(e, rest) else Rejoining(e, rest));
    assert s.entries[e := s.entries[e]] == s.entries;
  }

  lemma QuietEntry(procs: map<Proc, Pc>, procs': map<Proc, Pc>, p: Proc, e: EntryId, x: Entry, x': Entry)
    requires Moves(procs, procs', p) && EntryOk(procs, e, x) && x'.calls == x.calls && x'.closed == x.closed
    requires OwesAt(procs, p, e) ==> OwesAt(procs', p, e)
    requires JoinsAt(procs', p, e) ==> JoinsAt(procs, p, e) || !x.closed
    ensures EntryOk(procs', e, x')
  {
    MoveOwed(procs, procs', p, e);
  }

  lemma ReleaseKeeps(s: State, p: Proc, ok: bool)
    requires Inv(s) && p in s.procs && (s.procs[p].Leaving? || s.procs[p].Releasing?)
    ensures Inv(AdvanceStep(s, p, ok))
  {
    var e := s.procs[p].e;
    assert Holds(s.procs[p]) == Some(e);
    var s' := AdvanceStep(s, p, ok);
    QuietEntry(s.procs, s'.procs, p, e, s.entries[e], s'.entries[e]);
    Others(s.entries, s.procs, e, s'.entries[e], p, s'.procs);
    Unlocks(s.entries, s.procs, e, p, s'.procs);
  }

  lemma RebindingKeeps(s: State, p: Proc, rest: seq<EntryId>, ok: bool)
    requires Inv(s) && Enabled(s, Advance(p, ok)) && s.procs[p] == Rebinding(rest)
    ensures Inv(AdvanceStep(s, p, ok))
  {
    if rest == [] || !ok {
      PickKeeps(s.entries, s.procs, s.procs - {p}, p);
    } else {
      assert forall i :: 0 <= i < |rest[1..]| ==> rest[1..][i] == rest[i + 1];
      QuietMove(s, p, rest[0], s.entries[rest[0]].(mutex := Some(p)), Checking(rest[0], rest[1..]));
    }
  }

  lemma NextKeeps(s: State, step: Step)
    requires Inv(s) && Enabled(s, step)
    ensures Inv(Next(s, step))
  {
    match step
    case Connect(_, _, _, _, _, _) => ConnectKeeps(s, step);
    case Disconnect(_, _, _, _) => DisconnectKeeps(s, step);
    case Rebind(_, _, _, _) => RebindKeeps(s, step);
    case Advance(p, ok) =>
      match s.procs[p]
      case Registering(e) => RegisteringKeeps(s, p, e, ok);
      case Connecting(_) => CallKeeps(s, p, ok);
      case Failing(e) => FailKeeps(s, p, e, ok);
      case Removing(e) => RemovingKeeps(s, p, e, ok);
      case Cleaning(_) => PartKeeps(s, p, ok);
      case Leaving(_) => ReleaseKeeps(s, p, ok);
      case Closing(e) => ClosingKeeps(s, p, e, ok);
      case Parting(_) => PartKeeps(s, p, ok);
      case Rebinding(rest) => RebindingKeeps(s, p, rest, ok);
      case Checking(e, rest) => CheckingKeeps(s, p, e, rest, ok);
      case Rejoining(_, _) => CallKeeps(s, p, ok);
      case Releasing(_, _) => ReleaseKeeps(s, p, ok);
  }

  // ------------------------------------------------------------------ runs

  ghost predicate Runs(s: State, steps: seq<Step>)
    decreases |steps|
  {
    steps == [] || (Enabled(s, steps[0]) && Runs(Next(s, steps[0]), steps[1..]))
  }

  ghost function Run(s: State, steps: seq<Step>): State
    requires Runs(s, steps)
    decreases |steps|
  {
    if steps == [] then s else Run(Next(s, steps[0]), steps[1..])
  }

  lemma {:induction false} RunKeeps(s: State, steps: seq<Step>)
    requires Inv(s) && Runs(s, steps)
    ensures Inv(Run(s, steps))
    decreases |steps|
  {
    if steps != [] {
      NextKeeps(s, steps[0]);
      RunKeeps(Next(s, steps[0]), steps[1..]);
    }
  }

  const EMPTY := State(map[], map[], 0, map[])

  /** Under every schedule: no Connected for an entry follows a Disconnected; and once a closed entry owes nothing more,
      Disconnected was its last call. */
  lemma DisconnectedIsLast(steps: seq<Step>, e: EntryId)
    requires Runs(EMPTY, steps) && e in Run(EMPTY, steps).entries
    ensures var s := Run(EMPTY, steps); var x := s.entries[e];
            && InOrder(x.calls)
            && (x.closed && (forall p :: p in s.procs ==> !Owes(s.procs[p], e)) ==>
                  Ended(x.calls) && forall p :: p in s.procs ==> !Joins(s.procs[p], e))
            && (Disconnected in x.calls ==> x.closed)
  {
    RunKeeps(EMPTY, steps);
    var s := Run(EMPTY, steps);
    assert EntryOk(s.procs, e, s.entries[e]);
  }
}
