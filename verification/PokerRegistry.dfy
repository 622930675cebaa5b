/** What the registry holds and what every socket has been told once nothing is under way for it; that no schedule
    blocks for ever; and what connect, disconnect and rebind come to. */
module PokerRegistry {
  import opened Numbers
  import opened Wrappers
  import opened PokerSockets

  predicate Registered(sockets: map<ConnId, EntryId>, e: EntryId, x: Entry) {
    x.conn in sockets && sockets[x.conn] == e
  }

  ghost predicate At(procs: map<Proc, Pc>, pc: Pc) { exists p :: p in procs && procs[p] == pc }

  /** Admitted to the registry at some time, and told so. */
  predicate Told(entries: map<EntryId, Entry>, e: EntryId) {
    e in entries && entries[e].order > 0 && entries[e].calls != []
  }

  ghost predicate PcOk(entries: map<EntryId, Entry>, pc: Pc) {
    match pc
    case Registering(e) => e in entries && entries[e].order == 0
    case Connecting(e) => e in entries && entries[e].order > 0 && entries[e].calls == []
    case Failing(e) => Told(entries, e)
    case Removing(e) => Told(entries, e) && entries[e].closed
    case Cleaning(e) => Told(entries, e) && entries[e].closed
    case Leaving(e) => e in entries && (entries[e].order > 0 ==> entries[e].calls != [])
    case Closing(e) => e in entries && entries[e].order > 0 && entries[e].closed
    case Parting(e) => Told(entries, e) && entries[e].closed
    case Rebinding(rest) => Admitted(entries, rest)
    case Checking(e, rest) => Told(entries, e) && Admitted(entries, rest)
    case Rejoining(e, rest) => Told(entries, e) && Admitted(entries, rest)
    case Releasing(e, rest) => Told(entries, e) && Admitted(entries, rest)
  }

  ghost predicate Admitted(entries: map<EntryId, Entry>, rest: seq<EntryId>) {
    forall i :: 0 <= i < |rest| ==> rest[i] in entries && entries[rest[i]].order > 0
  }

  ghost predicate PcsOk(entries: map<EntryId, Entry>, procs: map<Proc, Pc>) {
    forall p :: p in procs ==> PcOk(entries, procs[p])
  }

  /** A lock is held by a goroutine that is in the middle of using it. */
  ghost predicate MutexesOk(entries: map<EntryId, Entry>, procs: map<Proc, Pc>) {
    forall e :: e in entries && entries[e].mutex.Some? ==>
      entries[e].mutex.value in procs && Holds(procs[entries[e].mutex.value]) == Some(e)
  }

  ghost predicate SocketsOk(entries: map<EntryId, Entry>, sockets: map<ConnId, EntryId>) {
    forall c :: c in sockets ==>
      sockets[c] in entries && entries[sockets[c]].conn == c && entries[sockets[c]].order > 0
  }

  /** Every admitted entry has an order of its own. */
  ghost predicate OrdersOk(entries: map<EntryId, Entry>, next: nat) {
    && (forall e :: e in entries ==> entries[e].order <= next)
    && (forall e, f :: e in entries && f in entries && e != f && entries[e].order > 0 ==>
          entries[e].order != entries[f].order)
  }

  /** An entry never admitted was told nothing. An admitted one is told Connected first, is in the registry until it is
      marked closed, and not much longer. */
  ghost predicate StandingOk(sockets: map<ConnId, EntryId>, procs: map<Proc, Pc>, e: EntryId, x: Entry) {
    && (x.order == 0 ==> x.calls == [] && !x.closed && !Registered(sockets, e, x))
    && (x.order > 0 && x.calls == [] ==> At(procs, Connecting(e)))
    && (x.calls != [] ==> x.calls[0] == Connected)
    && (x.order > 0 ==> Registered(sockets, e, x) || x.closed)
    && (Registered(sockets, e, x) && x.closed ==> At(procs, Removing(e)))
  }

  ghost predicate StandingsOk(entries: map<EntryId, Entry>, sockets: map<ConnId, EntryId>, procs: map<Proc, Pc>) {
    forall e :: e in entries ==> StandingOk(sockets, procs, e, entries[e])
  }

  ghost predicate RegInv(s: State) {
    && PcsOk(s.entries, s.procs) && MutexesOk(s.entries, s.procs) && SocketsOk(s.entries, s.sockets)
    && OrdersOk(s.entries, s.next) && StandingsOk(s.entries, s.sockets, s.procs)
  }

  // ---------------------------------------------------------- preservation

  /** What any move may do to an entry: admit it, mark it, take or release its lock, tell it something. */
  predicate Grows(x: Entry, x': Entry) {
    && x'.conn == x.conn && (x.order > 0 ==> x'.order == x.order) && (x.closed ==> x'.closed)
    && (x.calls != [] ==> x'.calls != [] && x'.calls[0] == x.calls[0])
  }

  /** The other goroutines do not notice: what they rely on only grows, and what they need unchanged is locked by
      them. */
  lemma PcsKeep(entries: map<EntryId, Entry>, procs: map<Proc, Pc>, procs': map<Proc, Pc>, p: Proc, e: EntryId,
                x: Entry)
    requires PcsOk(entries, procs) && LocksOk(entries, procs) && Moves(procs, procs', p)
    requires e in entries && Grows(entries[e], x)
    requires (x.order == entries[e].order && x.calls == entries[e].calls) || entries[e].mutex == Some(p)
    requires p in procs' ==> PcOk(entries[e := x], procs'[p])
    ensures PcsOk(entries[e := x], procs')
  {
    forall q | q in procs' ensures PcOk(entries[e := x], procs'[q]) {
      if q != p {
        assert PcOk(entries, procs[q]);
        OtherKeeps(entries, procs[q], q, p, e, x);
      }
    }
  }

  lemma OtherKeeps(entries: map<EntryId, Entry>, pc: Pc, q: Proc, p: Proc, e: EntryId, x: Entry)
    requires PcOk(entries, pc) && q != p && e in entries && Grows(entries[e], x)
    requires Holds(pc) == Some(e) ==> entries[e].mutex == Some(q)
    requires (x.order == entries[e].order && x.calls == entries[e].calls) || entries[e].mutex == Some(p)
    ensures PcOk(entries[e := x], pc)
  {
  }

  lemma MutexesKeep(entries: map<EntryId, Entry>, procs: map<Proc, Pc>, procs': map<Proc, Pc>, p: Proc, e: EntryId,
                    x: Entry)
    requires MutexesOk(entries, procs) && Moves(procs, procs', p)
    requires p in procs ==> Holds(procs[p]).None? || Holds(procs[p]) == Some(e)
    requires x.mutex.Some? ==> x.mutex.value in procs' && Holds(procs'[x.mutex.value]) == Some(e)
    ensures MutexesOk(entries[e := x], procs')
  {
    var entries' := entries[e := x];
    forall f | f in entries' && entries'[f].mutex.Some?
      ensures entries'[f].mutex.value in procs' && Holds(procs'[entries'[f].mutex.value]) == Some(f)
    {
      if f != e { assert Holds(procs[entries[f].mutex.value]) == Some(f); }
    }
  }

  /** Only at the entry a goroutine is concerned with can it be about to tell Connected first, or to remove. */
  lemma StandingsKeep(entries: map<EntryId, Entry>, sockets: map<ConnId, EntryId>, sockets': map<ConnId, EntryId>,
                      procs: map<Proc, Pc>, procs': map<Proc, Pc>, p: Proc, e: EntryId, x: Entry)
    requires StandingsOk(entries, sockets, procs) && Moves(procs, procs', p) && StandingOk(sockets', procs', e, x)
    requires p in procs ==> forall f: EntryId :: f != e ==> procs[p] != Connecting(f) && procs[p] != Removing(f)
    requires forall f :: f in entries && f != e ==>
              (Registered(sockets', f, entries[f]) <==> Registered(sockets, f, entries[f]))
    ensures StandingsOk(entries[e := x], sockets', procs')
  {
    var entries' := entries[e := x];
    forall f | f in entries' ensures StandingOk(sockets', procs', f, entries'[f]) {
      if f != e { StandingElsewhere(sockets, sockets', procs, procs', p, f, entries[f]); }
    }
  }

  lemma StandingElsewhere(sockets: map<ConnId, EntryId>, sockets': map<ConnId, EntryId>, procs: map<Proc, Pc>,
                          procs': map<Proc, Pc>, p: Proc, f: EntryId, x: Entry)
    requires StandingOk(sockets, procs, f, x) && Moves(procs, procs', p)
    requires p in procs ==> procs[p] != Connecting(f) && procs[p] != Removing(f)
    requires Registered(sockets', f, x) <==> Registered(sockets, f, x)
    ensures StandingOk(sockets', procs', f, x)
  {
    AtMoves(procs, procs', p, Connecting(f));
    AtMoves(procs, procs', p, Removing(f));
  }

  lemma AtMoves(procs: map<Proc, Pc>, procs': map<Proc, Pc>, p: Proc, pc: Pc)
    requires Moves(procs, procs', p)
    ensures At(procs, pc) && (p in procs ==> procs[p] != pc) ==> At(procs', pc)
    ensures p in procs' && procs'[p] == pc ==> At(procs', pc)
  {
    if At(procs, pc) && (p in procs ==> procs[p] != pc) {
      var q :| q in procs && procs[q] == pc;
      assert q in procs' && procs'[q] == pc;
    }
  }

  lemma SocketsKeep(entries: map<EntryId, Entry>, sockets: map<ConnId, EntryId>, sockets': map<ConnId, EntryId>,
                    e: EntryId, x: Entry)
    requires SocketsOk(entries, sockets)
    requires e in entries ==> x.conn == entries[e].conn && (entries[e].order > 0 ==> x.order > 0)
    requires forall c :: c in sockets' ==>
              (c in sockets && sockets'[c] == sockets[c]) || (sockets'[c] == e && x.conn == c && x.order > 0)
    ensures SocketsOk(entries[e := x], sockets')
  {
  }

  lemma OrdersKeep(entries: map<EntryId, Entry>, next: nat, next': nat, e: EntryId, x: Entry)
    requires OrdersOk(entries, next) && next <= next'
    requires (e in entries && x.order == entries[e].order) || x.order == 0 || next < x.order <= next'
    ensures OrdersOk(entries[e := x], next')
  {
  }

  lemma OthersRegistered(entries: map<EntryId, Entry>, sockets: map<ConnId, EntryId>, sockets': map<ConnId, EntryId>,
                         e: EntryId, c: ConnId)
    requires SocketsOk(entries, sockets) && e in entries && entries[e].conn == c
    requires || sockets' == sockets || (Registered(sockets, e, entries[e]) && sockets' == sockets - {c})
             || (c !in sockets && sockets' == sockets[c := e])
    ensures forall f :: f in entries && f != e ==>
              (Registered(sockets', f, entries[f]) <==> Registered(sockets, f, entries[f]))
  {
  }

  /** A move of one goroutine that changes one entry and at most takes it out of the registry. */
  lemma MoveKeeps(s: State, s': State, p: Proc, e: EntryId, x: Entry)
    requires RegInv(s) && LocksOk(s.entries, s.procs) && e in s.entries && Moves(s.procs, s'.procs, p)
    requires s'.entries == s.entries[e := x] && s'.next == s.next
    requires s'.sockets == s.sockets
          || (Registered(s.sockets, e, s.entries[e]) && s'.sockets == s.sockets - {s.entries[e].conn})
    requires Grows(s.entries[e], x) && x.order == s.entries[e].order
    requires x.calls == s.entries[e].calls || s.entries[e].mutex == Some(p)
    requires p in s.procs ==> Holds(s.procs[p]) == Some(e) || s.procs[p] == Closing(e) || s.procs[p].Rebinding?
    requires p in s'.procs ==> PcOk(s'.entries, s'.procs[p])
    requires x.mutex.Some? ==> x.mutex.value in s'.procs && Holds(s'.procs[x.mutex.value]) == Some(e)
    requires StandingOk(s'.sockets, s'.procs, e, x)
    ensures RegInv(s')
  {
    PcsKeep(s.entries, s.procs, s'.procs, p, e, x);
    MutexesKeep(s.entries, s.procs, s'.procs, p, e, x);
    SocketsKeep(s.entries, s.sockets, s'.sockets, e, x);
    OrdersKeep(s.entries, s.next, s'.next, e, x);
    OthersRegistered(s.entries, s.sockets, s'.sockets, e, x.conn);
    StandingsKeep(s.entries, s.sockets, s'.sockets, s.procs, s'.procs, p, e, x);
  }

  lemma ConnectRegisters(s: State, step: Step)
    requires RegInv(s) && LocksOk(s.entries, s.procs) && step.Connect? && Enabled(s, step)
    ensures RegInv(Next(s, step))
  {
    var s', p, e := Next(s, step), step.p, step.e;
    var x := s'.entries[e];
    NewKeeps(s.entries, s.sockets, s.procs, p, e, x);
    MutexesKeep(s.entries, s.procs, s'.procs, p, e, x);
    SocketsKeep(s.entries, s.sockets, s'.sockets, e, x);
    OrdersKeep(s.entries, s.next, s'.next, e, x);
  }

  lemma NewKeeps(entries: map<EntryId, Entry>, sockets: map<ConnId, EntryId>, procs: map<Proc, Pc>, p: Proc, e: EntryId,
                 x: Entry)
    requires PcsOk(entries, procs) && SocketsOk(entries, sockets) && StandingsOk(entries, sockets, procs)
    requires p !in procs && e !in entries && x.order == 0 && x.calls == [] && !x.closed
    ensures PcsOk(entries[e := x], procs[p := Registering(e)])
    ensures StandingsOk(entries[e := x], sockets, procs[p := Registering(e)])
  {
    var entries', procs' := entries[e := x], procs[p := Registering(e)];
    forall q | q in procs' ensures PcOk(entries', procs'[q]) {
      if q != p { assert PcOk(entries, procs[q]); }
    }
    assert StandingOk(sockets, procs', e, x);
    StandingsKeep(entries, sockets, sockets, procs, procs', p, e, x);
  }

  /** Nothing but the goroutine itself changes. */
  lemma LookingRegisters(s: State, s': State, p: Proc)
    requires RegInv(s) && Moves(s.procs, s'.procs, p) && s' == s.(procs := s'.procs)
    requires p in s.procs ==> s.procs[p].Rebinding?
    requires p in s'.procs ==> PcOk(s.entries, s'.procs[p])
    ensures RegInv(s')
  {
    LookingStands(s.entries, s.sockets, s.procs, s'.procs, p);
    LookingHolds(s.entries, s.procs, s'.procs, p);
  }

  lemma LookingStands(entries: map<EntryId, Entry>, sockets: map<ConnId, EntryId>, procs: map<Proc, Pc>,
                      procs': map<Proc, Pc>, p: Proc)
    requires StandingsOk(entries, sockets, procs) && Moves(procs, procs', p) && (p in procs ==> procs[p].Rebinding?)
    ensures StandingsOk(entries, sockets, procs')
  {
    forall e | e in entries ensures StandingOk(sockets, procs', e, entries[e]) {
      StandingElsewhere(sockets, sockets, procs, procs', p, e, entries[e]);
    }
  }

  lemma LookingHolds(entries: map<EntryId, Entry>, procs: map<Proc, Pc>, procs': map<Proc, Pc>, p: Proc)
    requires PcsOk(entries, procs) && MutexesOk(entries, procs) && Moves(procs, procs', p)
    requires (p in procs ==> procs[p].Rebinding?) && (p in procs' ==> PcOk(entries, procs'[p]))
    ensures PcsOk(entries, procs') && MutexesOk(entries, procs')
  {
  }

  lemma RebindRegisters(s: State, step: Step)
    requires RegInv(s) && step.Rebind? && Enabled(s, step)
    ensures RegInv(Next(s, step))
  {
    forall i | 0 <= i < |step.picked|
      ensures step.picked[i] in s.entries && s.entries[step.picked[i]].order > 0
    {
      assert Matches(s, step.picked[i], step.table, step.auth);
    }
    LookingRegisters(s, Next(s, step), step.p);
  }

  lemma DisconnectRegisters(s: State, step: Step)
    requires RegInv(s) && LocksOk(s.entries, s.procs) && step.Disconnect? && Enabled(s, step)
    ensures RegInv(Next(s, step))
  {
    var s' := Next(s, step);
    if s' != s {
      var e := s.sockets[step.conn];
      assert StandingOk(s.sockets, s.procs, e, s.entries[e]);
      AtMoves(s.procs, s'.procs, step.p, Connecting(e));
      MutexStays(s.entries, s.procs, s'.procs, step.p, e);
      MoveKeeps(s, s', step.p, e, s'.entries[e]);
    }
  }

  lemma MutexStays(entries: map<EntryId, Entry>, procs: map<Proc, Pc>, procs': map<Proc, Pc>, p: Proc, e: EntryId)
    requires MutexesOk(entries, procs) && Moves(procs, procs', p) && e in entries && p !in procs
    ensures entries[e].mutex.Some? ==>
              entries[e].mutex.value in procs' && Holds(procs'[entries[e].mutex.value]) == Some(e)
  {
  }

  lemma AdmitRegisters(s: State, p: Proc, e: EntryId, ok: bool)
    requires RegInv(s) && LocksOk(s.entries, s.procs) && p in s.procs && s.procs[p] == Registering(e)
    ensures RegInv(AdvanceStep(s, p, ok))
  {
    var s', x := AdvanceStep(s, p, ok), s.entries[e];
    assert Holds(s.procs[p]) == Some(e);
    assert PcOk(s.entries, s.procs[p]) && StandingOk(s.sockets, s.procs, e, x);
    if s'.sockets == s.sockets {
      assert s.entries[e := x] == s.entries;
      MoveKeeps(s, s', p, e, x);
    } else {
      Admits(s, s', p, e);
    }
  }

  lemma Admits(s: State, s': State, p: Proc, e: EntryId)
    requires RegInv(s) && LocksOk(s.entries, s.procs) && p in s.procs && s.procs[p] == Registering(e) && e in s.entries
    requires s.entries[e].mutex == Some(p) && s.entries[e].order == 0 && s.entries[e].conn !in s.sockets
    requires StandingOk(s.sockets, s.procs, e, s.entries[e])
    requires s' == Put(s, e, s.entries[e].(order := s.next + 1), p, Connecting(e))
                     .(next := s.next + 1, sockets := s.sockets[s.entries[e].conn := e])
    ensures RegInv(s')
  {
    var x := s'.entries[e];
    AdmittedStands(s.sockets, s.procs, p, e, s.entries[e], s.next + 1);
    PcsKeep(s.entries, s.procs, s'.procs, p, e, x);
    MutexesKeep(s.entries, s.procs, s'.procs, p, e, x);
    SocketsKeep(s.entries, s.sockets, s'.sockets, e, x);
    OrdersKeep(s.entries, s.next, s'.next, e, x);
    OthersRegistered(s.entries, s.sockets, s'.sockets, e, x.conn);
    StandingsKeep(s.entries, s.sockets, s'.sockets, s.procs, s'.procs, p, e, x);
  }

  lemma AdmittedStands(sockets: map<ConnId, EntryId>, procs: map<Proc, Pc>, p: Proc, e: EntryId, x: Entry, order: nat)
    requires StandingOk(sockets, procs, e, x) && x.order == 0 < order
    ensures StandingOk(sockets[x.conn := e], procs[p := Connecting(e)], e, x.(order := order))
  {
    AtMoves(procs, procs[p := Connecting(e)], p, Connecting(e));
  }

  /** A goroutine that holds the lock of the entry and goes on under it, or lets it go. */
  lemma HolderRegisters(s: State, p: Proc, ok: bool)
    requires RegInv(s) && LocksOk(s.entries, s.procs) && p in s.procs
    requires Holds(s.procs[p]).Some? && !s.procs[p].Registering?
    ensures RegInv(AdvanceStep(s, p, ok))
  {
    var s', e := AdvanceStep(s, p, ok), Holds(s.procs[p]).value;
    assert PcOk(s.entries, s.procs[p]) && StandingOk(s.sockets, s.procs, e, s.entries[e]);
    HolderMoves(s, p, e, ok);
    HolderGoesOn(s, p, e, ok);
    HolderStanding(s, p, e, ok);
    MoveKeeps(s, s', p, e, s'.entries[e]);
  }

  lemma HolderMoves(s: State, p: Proc, e: EntryId, ok: bool)
    requires p in s.procs && Holds(s.procs[p]) == Some(e) && !s.procs[p].Registering? && e in s.entries
    ensures var s' := AdvanceStep(s, p, ok);
            && e in s'.entries && s'.entries == s.entries[e := s'.entries[e]] && s'.next == s.next
            && Moves(s.procs, s'.procs, p)
            && (s'.sockets == s.sockets
                  || (Registered(s.sockets, e, s.entries[e]) && s'.sockets == s.sockets - {s.entries[e].conn}))
            && Grows(s.entries[e], s'.entries[e]) && s'.entries[e].order == s.entries[e].order
  {
    assert s.entries == s.entries[e := s.entries[e]];
  }

  lemma HolderGoesOn(s: State, p: Proc, e: EntryId, ok: bool)
    requires p in s.procs && Holds(s.procs[p]) == Some(e) && !s.procs[p].Registering? && PcOk(s.entries, s.procs[p])
    requires s.entries[e].mutex == Some(p)
    ensures var s' := AdvanceStep(s, p, ok);
            && e in s'.entries && (p in s'.procs ==> PcOk(s'.entries, s'.procs[p]))
            && (s'.entries[e].mutex.Some? ==>
                  s'.entries[e].mutex == Some(p) && p in s'.procs && Holds(s'.procs[p]) == Some(e))
  {
    var s' := AdvanceStep(s, p, ok);
    HolderMoves(s, p, e, ok);
    match s.procs[p]
    case Checking(_, rest) => AdmittedStays(s.entries, e, s'.entries[e], rest);
    case Rejoining(_, rest) => AdmittedStays(s.entries, e, s'.entries[e], rest);
    case Releasing(_, rest) => AdmittedStays(s.entries, e, s'.entries[e], rest);
    case _ =>
  }

  lemma AdmittedStays(entries: map<EntryId, Entry>, e: EntryId, x: Entry, rest: seq<EntryId>)
    requires Admitted(entries, rest) && e in entries && x.order == entries[e].order
    ensures Admitted(entries[e := x], rest)
  {
  }

  lemma HolderStanding(s: State, p: Proc, e: EntryId, ok: bool)
    requires p in s.procs && PcOk(s.entries, s.procs[p])
    requires Holds(s.procs[p]) == Some(e) && !s.procs[p].Registering?
    requires StandingOk(s.sockets, s.procs, e, s.entries[e])
    ensures var s' := AdvanceStep(s, p, ok);
            e in s'.entries && StandingOk(s'.sockets, s'.procs, e, s'.entries[e])
  {
    var s' := AdvanceStep(s, p, ok);
    HolderMoves(s, p, e, ok);
    AtMoves(s.procs, s'.procs, p, Connecting(e));
    AtMoves(s.procs, s'.procs, p, Removing(e));
  }

  /** A goroutine that waits for the lock of the entry and gets it. */
  lemma TakerRegisters(s: State, p: Proc, ok: bool)
    requires RegInv(s) && LocksOk(s.entries, s.procs) && Enabled(s, Advance(p, ok)) && Holds(s.procs[p]).None?
    ensures RegInv(AdvanceStep(s, p, ok))
  {
    var s', pc := AdvanceStep(s, p, ok), s.procs[p];
    assert PcOk(s.entries, pc);
    if pc.Rebinding? && (pc.rest == [] || !ok) {
      LookingRegisters(s, s', p);
    } else {
      Takes(s, p, Wants(pc).value, ok);
    }
  }

  lemma Takes(s: State, p: Proc, e: EntryId, ok: bool)
    requires RegInv(s) && LocksOk(s.entries, s.procs) && p in s.procs && e in s.entries && PcOk(s.entries, s.procs[p])
    requires Wants(s.procs[p]) == Some(e) && s.entries[e].mutex.None? && (s.procs[p].Rebinding? ==> ok)
    ensures RegInv(AdvanceStep(s, p, ok))
  {
    var s', x := AdvanceStep(s, p, ok), s.entries[e].(mutex := Some(p));
    assert s'.entries == s.entries[e := x];
    assert StandingOk(s.sockets, s.procs, e, s.entries[e]);
    NotConnecting(s, e);
    StandingElsewhere(s.sockets, s'.sockets, s.procs, s'.procs, p, e, s.entries[e]);
    TakerGoesOn(s.entries, s.procs[p], e, x, s'.procs[p]);
    MoveKeeps(s, s', p, e, x);
  }

  /** Who tells Connected first never lets go of the lock before. */
  lemma NotConnecting(s: State, e: EntryId)
    requires LocksOk(s.entries, s.procs) && e in s.entries && s.entries[e].mutex.None?
    ensures !At(s.procs, Connecting(e))
  {
    forall q | q in s.procs ensures s.procs[q] != Connecting(e) { JoinerHolds(s.procs[q], e); }
  }

  lemma TakerGoesOn(entries: map<EntryId, Entry>, pc: Pc, e: EntryId, x: Entry, pc': Pc)
    requires PcOk(entries, pc) && Wants(pc) == Some(e) && e in entries && entries[e].calls != []
    requires x == entries[e].(mutex := x.mutex)
    requires pc' == if pc.Closing? then Parting(e) else Checking(e, pc.rest[1..])
    ensures PcOk(entries[e := x], pc')
  {
  }

  lemma NextRegisters(s: State, step: Step)
    requires RegInv(s) && LocksOk(s.entries, s.procs) && Enabled(s, step)
    ensures RegInv(Next(s, step))
  {
    if step.Connect? {
      ConnectRegisters(s, step);
    } else if step.Disconnect? {
      DisconnectRegisters(s, step);
    } else if step.Rebind? {
      RebindRegisters(s, step);
    } else if Holds(s.procs[step.p]).None? {
      TakerRegisters(s, step.p, step.ok);
    } else if s.procs[step.p].Registering? {
      AdmitRegisters(s, step.p, s.procs[step.p].e, step.ok);
    } else {
      HolderRegisters(s, step.p, step.ok);
    }
  }

  lemma {:induction false} RunRegisters(s: State, steps: seq<Step>)
    requires Inv(s) && RegInv(s) && Runs(s, steps)
    ensures Inv(Run(s, steps)) && RegInv(Run(s, steps))
    decreases |steps|
  {
    if steps != [] {
      NextKeeps(s, steps[0]);
      NextRegisters(s, steps[0]);
      RunRegisters(Next(s, steps[0]), steps[1..]);
    }
  }

  // -------------------------------------------------------------- at rest

  /** Nobody holds the entry's lock, waits for it to say Disconnected, or is about to. */
  ghost predicate AtRest(s: State, e: EntryId) {
    forall p :: p in s.procs ==> Holds(s.procs[p]) != Some(e) && s.procs[p] != Closing(e)
  }

  /** Under every schedule, an entry for which nothing is under way is one of three: denied and told nothing; in the
      registry under its connection, told Connected and never Disconnected; or out of it, told Connected first and
      Disconnected last. */
  lemma RestsExactly(steps: seq<Step>, e: EntryId)
    requires Runs(EMPTY, steps) && e in Run(EMPTY, steps).entries && AtRest(Run(EMPTY, steps), e)
    ensures var s := Run(EMPTY, steps); var x := s.entries[e];
            var listed := x.conn in s.sockets && s.sockets[x.conn] == e;
            if x.order == 0 then x.calls == [] && !listed && !x.closed
            else
              && x.calls != [] && x.calls[0] == Connected && InOrder(x.calls) && (listed <==> !x.closed)
              && (listed <==> Disconnected !in x.calls) && (!listed ==> Ended(x.calls))
  {
    RunRegisters(EMPTY, steps);
    RestsInv(Run(EMPTY, steps), e);
  }

  lemma RestsInv(s: State, e: EntryId)
    requires Inv(s) && RegInv(s) && e in s.entries && AtRest(s, e)
    ensures var x := s.entries[e];
            if x.order == 0 then x.calls == [] && !Registered(s.sockets, e, x) && !x.closed
            else
              && x.calls != [] && x.calls[0] == Connected && InOrder(x.calls)
              && (Registered(s.sockets, e, x) <==> !x.closed) && (!x.closed <==> Disconnected !in x.calls)
              && (x.closed ==> Ended(x.calls))
  {
    assert EntryOk(s.procs, e, s.entries[e]) && StandingOk(s.sockets, s.procs, e, s.entries[e]);
    assert !At(s.procs, Connecting(e)) && !At(s.procs, Removing(e)) && !Owed(s.procs, e);
  }

  // ------------------------------------------------------------- no schedule blocks

  /** In every reachable state in which a goroutine is under way, one of them can move. */
  lemma SomeoneMoves(s: State) returns (p: Proc)
    requires Inv(s) && RegInv(s) && s.procs != map[]
    ensures forall ok :: Enabled(s, Advance(p, ok))
  {
    var q :| q in s.procs;
    p := q;
    if Wants(s.procs[q]).Some? {
      assert PcOk(s.entries, s.procs[q]);
      p := UnlockedMover(s.entries, s.procs, q, Wants(s.procs[q]).value);
    }
  }

  lemma UnlockedMover(entries: map<EntryId, Entry>, procs: map<Proc, Pc>, q: Proc, e: EntryId) returns (p: Proc)
    requires MutexesOk(entries, procs) && q in procs && Wants(procs[q]) == Some(e) && e in entries
    ensures p in procs && (Wants(procs[p]).None? || (p == q && entries[e].mutex.None?))
  {
    p := if entries[e].mutex.Some? then entries[e].mutex.value else q;
  }

  /** How many moves a goroutine has left at most. */
  function Left(pc: Pc): (r: int)
    ensures r >= 1
  {
    match pc
    case Registering(_) => 6
    case Connecting(_) => 5
    case Failing(_) => 4
    case Removing(_) => 3
    case Cleaning(_) => 2
    case Leaving(_) => 1
    case Closing(_) => 3
    case Parting(_) => 2
    case Rebinding(rest) => 1 + 4 * |rest|
    case Checking(_, rest) => 4 + 4 * |rest|
    case Rejoining(_, rest) => 3 + 4 * |rest|
    case Releasing(_, rest) => 2 + 4 * |rest|
  }

  function Lefts(): Pc -> int { (pc: Pc) => Left(pc) }

  lemma MoveIsLess(s: State, p: Proc, ok: bool)
    requires p in s.procs
    ensures var procs' := AdvanceStep(s, p, ok).procs; p in procs' ==> Left(procs'[p]) < Left(s.procs[p])
  {
    match s.procs[p]
    case Registering(_) =>
    case Rebinding(_) =>
    case _ =>
  }

  lemma OthersStay(s: State, p: Proc, q: Proc, ok: bool)
    requires p in s.procs && q != p
    ensures var procs' := AdvanceStep(s, p, ok).procs;
            (q in procs' <==> q in s.procs) && (q in s.procs ==> procs'[q] == s.procs[q])
  {
    match s.procs[p]
    case Registering(_) =>
    case Rebinding(_) =>
    case Closing(_) =>
    case Checking(_, _) =>
    case _ =>
  }

  lemma MovesLess(procs: map<Proc, Pc>, procs': map<Proc, Pc>, p: Proc)
    requires Moves(procs, procs', p) && p in procs && (p in procs' ==> Left(procs'[p]) < Left(procs[p]))
    ensures SumOf(procs', Lefts()) < SumOf(procs, Lefts())
  {
    if p in procs' {
      assert procs' == procs[p := procs'[p]];
      SumOfUpdate(procs, Lefts(), p, procs'[p]);
    } else {
      assert procs' == procs - {p};
      SumOfRemove(procs, Lefts(), p);
    }
  }

  lemma MoveUsesUp(s: State, p: Proc, ok: bool)
    requires p in s.procs
    ensures SumOf(AdvanceStep(s, p, ok).procs, Lefts()) < SumOf(s.procs, Lefts())
  {
    var procs' := AdvanceStep(s, p, ok).procs;
    forall q | q != p ensures (q in procs' <==> q in s.procs) && (q in s.procs ==> procs'[q] == s.procs[q]) {
      OthersStay(s, p, q, ok);
    }
    MoveIsLess(s, p, ok);
    MovesLess(s.procs, procs', p);
  }

  /** Only moves of goroutines already under way. */
  predicate OnlyAdvances(steps: seq<Step>) { forall i :: 0 <= i < |steps| ==> steps[i].Advance? }

  lemma {:induction false} AdvancesBounded(s: State, steps: seq<Step>)
    requires Runs(s, steps) && OnlyAdvances(steps)
    ensures |steps| + SumOf(Run(s, steps).procs, Lefts()) <= SumOf(s.procs, Lefts())
    decreases |steps|
  {
    if steps != [] {
      MoveUsesUp(s, steps[0].p, steps[0].ok);
      AdvancesBounded(Next(s, steps[0]), steps[1..]);
    }
  }

  /** No goroutine under way can move. */
  ghost predicate Stuck(s: State) { forall p, ok :: !Enabled(s, Advance(p, ok)) }

  /** No schedule deadlocks or goes on for ever by itself: in whatever order the goroutines under way move, it comes to
      an end within so many moves, and when none can move they have all returned and no lock is held. */
  lemma EveryScheduleEnds(steps: seq<Step>, more: seq<Step>)
    requires Runs(EMPTY, steps) && Runs(Run(EMPTY, steps), more) && OnlyAdvances(more)
    ensures |more| <= SumOf(Run(EMPTY, steps).procs, Lefts())
    ensures var s := Run(Run(EMPTY, steps), more);
            Stuck(s) <==> s.procs == map[] && forall e :: e in s.entries ==> s.entries[e].mutex.None?
  {
    RunRegisters(EMPTY, steps);
    RunRegisters(Run(EMPTY, steps), more);
    AdvancesBounded(Run(EMPTY, steps), more);
    var s := Run(Run(EMPTY, steps), more);
    SumOfAtLeast(s.procs, Lefts());
    StuckExactly(s);
  }

  lemma StuckExactly(s: State)
    requires Inv(s) && RegInv(s)
    ensures Stuck(s) <==> s.procs == map[] && forall e :: e in s.entries ==> s.entries[e].mutex.None?
  {
    if s.procs != map[] {
      var p := SomeoneMoves(s);
      assert Enabled(s, Advance(p, true));
    }
  }

  // ---------------------------------------- what a call comes to by itself

  lemma RunsCons(s: State, step: Step, rest: seq<Step>)
    requires Enabled(s, step) && Runs(Next(s, step), rest)
    ensures Runs(s, [step] + rest) && Run(s, [step] + rest) == Run(Next(s, step), rest)
  {
    assert ([step] + rest)[1..] == rest;
  }

  /** The goroutine moves on by itself to `s'`. */
  ghost predicate Goes(s: State, p: Proc, steps: seq<Step>, s': State) {
    && Runs(s, steps) && Run(s, steps) == s' && OnlyAdvances(steps)
    && forall i :: 0 <= i < |steps| && steps[i].Advance? ==> steps[i].p == p
  }

  lemma GoesCons(s: State, p: Proc, ok: bool, steps: seq<Step>, s': State)
    requires Enabled(s, Advance(p, ok)) && Goes(AdvanceStep(s, p, ok), p, steps, s')
    ensures Goes(s, p, [Advance(p, ok)] + steps, s')
  {
    RunsCons(s, Advance(p, ok), steps);
  }

  /** The entry is written and the goroutine gone. */
  function Settled(s: State, p: Proc, e: EntryId, x: Entry): State {
    s.(entries := s.entries[e := x], procs := s.procs - {p})
  }

  lemma SettledAgain(s: State, p: Proc, e: EntryId, y: Entry, pc: Pc, x: Entry)
    ensures Settled(Put(s, e, y, p, pc), p, e, x) == Settled(s, p, e, x)
    ensures e in s.entries && y == s.entries[e] ==> Put(s, e, y, p, pc) == Goto(s, p, pc)
  {
    var s' := Put(s, e, y, p, pc);
    assert s'.entries[e := x] == s.entries[e := x];
    assert s'.procs - {p} == s.procs - {p};
    if e in s.entries && y == s.entries[e] { assert s'.entries == s.entries; }
  }

  lemma LeavesAlone(s: State, p: Proc, e: EntryId) returns (steps: seq<Step>)
    requires p in s.procs && s.procs[p] == Leaving(e) && e in s.entries
    ensures Goes(s, p, steps, Settled(s, p, e, s.entries[e].(mutex := None)))
  {
    var x := s.entries[e].(mutex := None);
    SettledAgain(s, p, e, x, Leaving(e), x);
    var s' := AdvanceStep(s, p, true);
    assert s' == Settled(s, p, e, x);
    assert Goes(s', p, [], s');
    GoesCons(s, p, true, [], s');
    steps := [Advance(p, true)] + [];
  }

  /** Saying Disconnected, then leaving. */
  lemma PartsAlone(s: State, p: Proc, e: EntryId) returns (steps: seq<Step>)
    requires p in s.procs && (s.procs[p] == Parting(e) || s.procs[p] == Cleaning(e)) && e in s.entries
    ensures Goes(s, p, steps,
                 Settled(s, p, e, s.entries[e].(calls := s.entries[e].calls + [Disconnected], mutex := None)))
  {
    var y := s.entries[e].(calls := s.entries[e].calls + [Disconnected]);
    var s1 := AdvanceStep(s, p, true);
    assert s1 == Put(s, e, y, p, Leaving(e));
    var rest := LeavesAlone(s1, p, e);
    SettledAgain(s, p, e, y, Leaving(e), y.(mutex := None));
    GoesCons(s, p, true, rest, Settled(s, p, e, y.(mutex := None)));
    steps := [Advance(p, true)] + rest;
  }

  /** Waiting for the lock, then parting. */
  lemma ClosesAlone(s: State, p: Proc, e: EntryId) returns (steps: seq<Step>)
    requires p in s.procs && s.procs[p] == Closing(e) && e in s.entries && s.entries[e].mutex.None?
    ensures Goes(s, p, steps,
                 Settled(s, p, e, s.entries[e].(calls := s.entries[e].calls + [Disconnected], mutex := None)))
  {
    var y := s.entries[e].(mutex := Some(p));
    var s1 := AdvanceStep(s, p, true);
    assert s1 == Put(s, e, y, p, Parting(e));
    var rest := PartsAlone(s1, p, e);
    var x := s.entries[e].(calls := s.entries[e].calls + [Disconnected], mutex := None);
    SettledAgain(s, p, e, y, Parting(e), x);
    GoesCons(s, p, true, rest, Settled(s, p, e, x));
    steps := [Advance(p, true)] + rest;
  }

  /** A call met while nobody uses the entry's lock. */
  ghost predicate Comes(s: State, call: Step, steps: seq<Step>, s': State) {
    Enabled(s, call) && !call.Advance? && Goes(Next(s, call), call.p, steps, s')
  }

  /** A disconnect of a listed connection by its own table and session marks the entry closed, takes it out of the
      registry and says Disconnected last; any other changes nothing at all. */
  lemma DisconnectAlone(s: State, call: Step) returns (steps: seq<Step>)
    requires RegInv(s) && call.Disconnect? && Enabled(s, call)
    requires call.conn in s.sockets ==> s.entries[s.sockets[call.conn]].mutex.None?
    ensures if call.conn in s.sockets && s.entries[s.sockets[call.conn]].table == call.table
               && s.entries[s.sockets[call.conn]].auth == call.auth
            then var e := s.sockets[call.conn]; var x := s.entries[e];
                 Comes(s, call, steps,
                       s.(entries := s.entries[e := x.(closed := true, calls := x.calls + [Disconnected])],
                          sockets := s.sockets - {call.conn}))
            else Comes(s, call, steps, s)
  {
    var s1 := Next(s, call);
    if s1 == s {
      steps := [];
      assert Goes(s, call.p, [], s);
    } else {
      var e := s.sockets[call.conn];
      var y := s.entries[e].(closed := true);
      steps := ClosesAlone(s1, call.p, e);
      SettledAgain(s, call.p, e, y, Closing(e), y.(calls := y.calls + [Disconnected]));
      assert s.procs - {call.p} == s.procs;
    }
  }

  /** A failed Connected: marked, taken out, told Disconnected. */
  lemma FailsAlone(s: State, p: Proc, e: EntryId) returns (steps: seq<Step>)
    requires p in s.procs && s.procs[p] == Failing(e) && e in s.entries && Registered(s.sockets, e, s.entries[e])
    ensures var x := s.entries[e];
            var y := x.(closed := true, calls := x.calls + [Disconnected], mutex := None);
            Goes(s, p, steps, Settled(s, p, e, y).(sockets := s.sockets - {x.conn}))
  {
    var x := s.entries[e].(closed := true);
    var s1 := AdvanceStep(s, p, true);
    assert s1 == Put(s, e, x, p, Removing(e));
    var s2 := AdvanceStep(s1, p, true);
    assert s2 == Goto(s1, p, Cleaning(e)).(sockets := s.sockets - {x.conn});
    var rest := PartsAlone(s2, p, e);
    var y := x.(calls := x.calls + [Disconnected], mutex := None);
    SettledAgain(s1, p, e, x, Cleaning(e), y);
    SettledAgain(s, p, e, x, Removing(e), y);
    var s' := Settled(s, p, e, y).(sockets := s.sockets - {x.conn});
    GoesCons(s1, p, true, rest, s');
    GoesCons(s, p, true, [Advance(p, true)] + rest, s');
    steps := [Advance(p, true)] + ([Advance(p, true)] + rest);
  }

  /** An admitted entry once its connect has returned. */
  function Outcome(x: Entry, order: nat, ok: bool): Entry {
    Entry(x.conn, x.table, x.auth, x.claims, order, !ok, None, if ok then [Connected] else [Connected, Disconnected])
  }

  lemma ConnectsAlone(s: State, p: Proc, e: EntryId, ok: bool) returns (steps: seq<Step>)
    requires p in s.procs && s.procs[p] == Connecting(e) && e in s.entries && Registered(s.sockets, e, s.entries[e])
    requires s.entries[e].calls == [] && !s.entries[e].closed
    ensures Goes(s, p, steps,
                 Settled(s, p, e, Outcome(s.entries[e], s.entries[e].order, ok))
                   .(sockets := if ok then s.sockets else s.sockets - {s.entries[e].conn}))
  {
    var y := s.entries[e].(calls := [Connected]);
    var z := Outcome(y, y.order, ok);
    var s1 := AdvanceStep(s, p, ok);
    assert [] + [Connected] == [Connected] && [Connected] + [Disconnected] == [Connected, Disconnected];
    var rest;
    if ok {
      assert s1 == Put(s, e, y, p, Leaving(e));
      SettledAgain(s, p, e, y, Leaving(e), z);
      rest := LeavesAlone(s1, p, e);
    } else {
      assert s1 == Put(s, e, y, p, Failing(e));
      SettledAgain(s, p, e, y, Failing(e), z);
      rest := FailsAlone(s1, p, e);
    }
    GoesCons(s, p, ok, rest, Run(s1, rest));
    steps := [Advance(p, ok)] + rest;
  }

  /** A connect is admitted if and only if its connection is free, fewer than 1024 are listed and an order is left. Then
      it is listed with the next order and told Connected; when that fails it is marked, taken out and told
      Disconnected. A denied one is told nothing and nothing else moves. */
  lemma ConnectAlone(s: State, call: Step, ok: bool) returns (steps: seq<Step>)
    requires call.Connect? && Enabled(s, call) && s.next <= MAX_ORDER
    ensures var x := Entry(call.conn, call.table, call.auth, call.claims, s.next + 1, false, None, [Connected]);
            var admitted := call.conn !in s.sockets && |s.sockets| < 1024 && s.next < 0xFFFF_FFFF_FFFF_FFFF;
            Comes(s, call, steps,
                  if !admitted then s.(entries := s.entries[call.e := x.(order := 0, calls := [])])
                  else if ok then
                    s.(entries := s.entries[call.e := x], sockets := s.sockets[call.conn := call.e], next := s.next + 1)
                  else s.(entries := s.entries[call.e := x.(closed := true, calls := [Connected, Disconnected])],
                          next := s.next + 1))
  {
    if call.conn in s.sockets || |s.sockets| >= 1024 || s.next == MAX_ORDER {
      steps := DeniedAlone(s, call, ok);
    } else {
      steps := AdmittedAlone(s, call, ok);
    }
  }

  lemma DeniedAlone(s: State, call: Step, ok: bool) returns (steps: seq<Step>)
    requires call.Connect? && Enabled(s, call)
    requires call.conn in s.sockets || |s.sockets| >= LIMIT || s.next == MAX_ORDER
    ensures var x := Entry(call.conn, call.table, call.auth, call.claims, 0, false, None, []);
            Comes(s, call, steps, s.(entries := s.entries[call.e := x]))
  {
    var p, e := call.p, call.e;
    var s1 := Next(s, call);
    var x := s1.entries[e];
    var s2 := AdvanceStep(s1, p, ok);
    assert s2 == Goto(s1, p, Leaving(e));
    var rest := LeavesAlone(s2, p, e);
    SettledAgain(s1, p, e, x, Leaving(e), x.(mutex := None));
    SettledAgain(s, p, e, x, Registering(e), x.(mutex := None));
    GoesCons(s1, p, ok, rest, Settled(s1, p, e, x.(mutex := None)));
    assert s.procs - {p} == s.procs;
    steps := [Advance(p, ok)] + rest;
  }

  lemma RegistersAlone(s: State, p: Proc, e: EntryId, ok: bool) returns (steps: seq<Step>)
    requires p in s.procs && s.procs[p] == Registering(e) && e in s.entries
    requires s.entries[e].calls == [] && !s.entries[e].closed
    requires s.entries[e].conn !in s.sockets && |s.sockets| < LIMIT && s.next < MAX_ORDER
    ensures Goes(s, p, steps,
                 Settled(s, p, e, Outcome(s.entries[e], s.next + 1, ok))
                   .(sockets := if ok then s.sockets[s.entries[e].conn := e] else s.sockets, next := s.next + 1))
  {
    var y := s.entries[e].(order := s.next + 1);
    var s1 := AdvanceStep(s, p, ok);
    assert s1 == Put(s, e, y, p, Connecting(e)).(next := s.next + 1, sockets := s.sockets[y.conn := e]);
    var rest := ConnectsAlone(s1, p, e, ok);
    var z := Outcome(s.entries[e], s.next + 1, ok);
    SettledAgain(s, p, e, y, Connecting(e), z);
    assert s.sockets[y.conn := e] - {y.conn} == s.sockets;
    GoesCons(s, p, ok, rest, Run(s1, rest));
    steps := [Advance(p, ok)] + rest;
  }

  lemma BackTo(s: State, call: Step, z: Entry)
    requires call.Connect? && Enabled(s, call)
    ensures Settled(Next(s, call), call.p, call.e, z) == s.(entries := s.entries[call.e := z])
  {
    SettledAgain(s, call.p, call.e, Next(s, call).entries[call.e], Registering(call.e), z);
    assert s.procs - {call.p} == s.procs;
  }

  lemma AdmittedAlone(s: State, call: Step, ok: bool) returns (steps: seq<Step>)
    requires call.Connect? && Enabled(s, call)
    requires call.conn !in s.sockets && |s.sockets| < LIMIT && s.next < MAX_ORDER
    ensures var x := Entry(call.conn, call.table, call.auth, call.claims, 0, false, None, []);
            Comes(s, call, steps,
                  s.(entries := s.entries[call.e := Outcome(x, s.next + 1, ok)], next := s.next + 1,
                     sockets := if ok then s.sockets[call.conn := call.e] else s.sockets))
  {
    AdmittedState(s, call, ok);
    steps := RegistersAlone(Next(s, call), call.p, call.e, ok);
  }

  lemma AdmittedState(s: State, call: Step, ok: bool)
    requires call.Connect? && Enabled(s, call)
    ensures var s1 := Next(s, call);
            var x := Entry(call.conn, call.table, call.auth, call.claims, 0, false, None, []);
            && s1.entries[call.e] == x.(mutex := Some(call.p)) && s1.sockets == s.sockets && s1.next == s.next
            && Settled(s1, call.p, call.e, Outcome(s1.entries[call.e], s.next + 1, ok))
            == s.(entries := s.entries[call.e := Outcome(x, s.next + 1, ok)])
  {
    BackTo(s, call, Outcome(Next(s, call).entries[call.e], s.next + 1, ok));
  }

  function Rejoin(x: Entry): Entry { if x.closed then x else x.(calls := x.calls + [Connected]) }

  /** A turn of the rebind's loop, and what follows it. */
  lemma TurnAlone(s: State, p: Proc, e: EntryId, rest: seq<EntryId>, more: seq<Step>, s': State)
    returns (steps: seq<Step>)
    requires p in s.procs && s.procs[p] == Rebinding([e] + rest) && e in s.entries && s.entries[e].mutex.None?
    requires Goes(Put(s, e, Rejoin(s.entries[e]), p, Rebinding(rest)), p, more, s')
    ensures Goes(s, p, steps, s')
  {
    var x := s.entries[e].(mutex := Some(p));
    var s1 := AdvanceStep(s, p, true);
    assert ([e] + rest)[1..] == rest;
    assert s1 == Put(s, e, x, p, Checking(e, rest));
    assert Put(s1, e, Rejoin(s.entries[e]), p, Rebinding(rest))
        == Put(s, e, Rejoin(s.entries[e]), p, Rebinding(rest));
    var next := ChecksAlone(s1, p, e, rest, more, s');
    GoesCons(s, p, true, next, s');
    steps := [Advance(p, true)] + next;
  }

  lemma ChecksAlone(s: State, p: Proc, e: EntryId, rest: seq<EntryId>, more: seq<Step>, s': State)
    returns (steps: seq<Step>)
    requires p in s.procs && s.procs[p] == Checking(e, rest) && e in s.entries
    requires Goes(Put(s, e, Rejoin(s.entries[e].(mutex := None)), p, Rebinding(rest)), p, more, s')
    ensures Goes(s, p, steps, s')
  {
    var x, s1 := s.entries[e], AdvanceStep(s, p, true);
    if x.closed {
      assert AdvanceStep(s1, p, true) == Put(s, e, x.(mutex := None), p, Rebinding(rest));
      GoesCons(s1, p, true, more, s');
      steps := [Advance(p, true)] + more;
    } else {
      assert Put(s1, e, Rejoin(x.(mutex := None)), p, Rebinding(rest))
          == Put(s, e, Rejoin(x.(mutex := None)), p, Rebinding(rest));
      steps := RejoinsAlone(s1, p, e, rest, more, s');
    }
    GoesCons(s, p, true, steps, s');
    steps := [Advance(p, true)] + steps;
  }

  lemma RejoinsAlone(s: State, p: Proc, e: EntryId, rest: seq<EntryId>, more: seq<Step>, s': State)
    returns (steps: seq<Step>)
    requires p in s.procs && s.procs[p] == Rejoining(e, rest) && e in s.entries && !s.entries[e].closed
    requires Goes(Put(s, e, Rejoin(s.entries[e].(mutex := None)), p, Rebinding(rest)), p, more, s')
    ensures Goes(s, p, steps, s')
  {
    var x, s1 := s.entries[e], AdvanceStep(s, p, true);
    assert s1 == Put(s, e, x.(calls := x.calls + [Connected]), p, Releasing(e, rest));
    assert AdvanceStep(s1, p, true) == Put(s, e, Rejoin(x.(mutex := None)), p, Rebinding(rest));
    GoesCons(s1, p, true, more, s');
    GoesCons(s, p, true, [Advance(p, true)] + more, s');
    steps := [Advance(p, true)] + ([Advance(p, true)] + more);
  }

  /** Every entry of the list that is open is told Connected once more; no other entry changes. */
  function ToldAll(entries: map<EntryId, Entry>, list: seq<EntryId>): map<EntryId, Entry> {
    map e | e in entries :: if e in list then Rejoin(entries[e]) else entries[e]
  }

  lemma {:induction false} TurnsAlone(s: State, p: Proc, rest: seq<EntryId>) returns (steps: seq<Step>)
    requires p in s.procs && s.procs[p] == Rebinding(rest)
    requires forall i :: 0 <= i < |rest| ==> rest[i] in s.entries && s.entries[rest[i]].mutex.None?
    requires forall i, j :: 0 <= i < j < |rest| ==> rest[i] != rest[j]
    ensures Goes(s, p, steps, s.(entries := ToldAll(s.entries, rest), procs := s.procs - {p}))
    decreases |rest|
  {
    if rest == [] {
      var s' := AdvanceStep(s, p, true);
      assert ToldAll(s.entries, rest) == s.entries;
      assert Goes(s', p, [], s');
      GoesCons(s, p, true, [], s');
      steps := [Advance(p, true)] + [];
    } else {
      var e, more := rest[0], rest[1..];
      assert rest == [e] + more;
      var s1 := Put(s, e, Rejoin(s.entries[e]), p, Rebinding(more));
      var others := TurnsAlone(s1, p, more);
      assert e !in more;
      assert ToldAll(s1.entries, more) == ToldAll(s.entries, rest);
      assert s1.procs - {p} == s.procs - {p};
      steps := TurnAlone(s, p, e, more, others, s.(entries := ToldAll(s.entries, rest), procs := s.procs - {p}));
    }
  }

  /** A rebind tells every listed open entry of the table and session that claims control Connected once more, and no
      other; the registry stays as it is. */
  lemma RebindAlone(s: State, call: Step) returns (steps: seq<Step>)
    requires call.Rebind? && Enabled(s, call)
    requires forall e :: e in call.picked ==> e in s.entries && s.entries[e].mutex.None?
    ensures exists s' :: Comes(s, call, steps, s') && s' == s.(entries := s'.entries) && Rejoins(s, s', call)
  {
    var s1 := Next(s, call);
    var told := ToldAll(s.entries, call.picked);
    forall i | 0 <= i < |call.picked| ensures call.picked[i] in s1.entries && s1.entries[call.picked[i]].mutex.None? {
      assert call.picked[i] in call.picked;
    }
    steps := TurnsAlone(s1, call.p, call.picked);
    assert s1.procs - {call.p} == s.procs;
    assert Comes(s, call, steps, s.(entries := told));
  }

  ghost predicate Rejoins(s: State, s': State, call: Step)
    requires call.Rebind?
  {
    && s'.entries.Keys == s.entries.Keys
    && forall e :: e in s.entries ==>
         var x := s.entries[e];
         s'.entries[e] == if x.table == call.table && x.auth == call.auth && x.claims && !x.closed
                             && x.conn in s.sockets && s.sockets[x.conn] == e
                          then x.(calls := x.calls + [Connected]) else x
  }
}
