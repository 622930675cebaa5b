/** Announcements over every run of commands and jobs: jobs always pending, windows exclusive, lifecycles one-way. */
module AnnouncementRuns {
  import opened Wrappers
  import opened Announcements

  // ------------------------------------------------------------- invariant

  predicate PendingAt(jobs: map<JobKey, Job>, k: JobKey, due: int) {
    k in jobs && jobs[k].status == Pending && jobs[k].due == due
  }

  /** What one announcement and its jobs look like when the clock last read `time`. */
  predicate ItemOk(jobs: map<JobKey, Job>, id: Id, a: Announcement, time: int) {
    && (a.state in {Scheduled, Published} ==>
          && a.window.Some? && a.window.value.publishAt <= a.window.value.from
          && (a.window.value.until.Some? ==> a.window.value.from < a.window.value.until.value))
    && (a.state == Published ==> a.firstPublishedAt.Some?)
    && Suits(a.placements, a.content.isPublic)
    && (a.canonical ==> a.content.kind == Acknowledgements)
    && (a.state == Published && a.window.value.until.Some? ==>
          PendingAt(jobs, ExpireKey(id, a.revision), a.window.value.until.value))
    && (a.state == Scheduled && a.withdrawnAt.None? ==>
          PendingAt(jobs, PublishKey(id, a.contentVersion), a.window.value.publishAt))
    && (a.state == Scheduled && a.window.value.until.Some? && time < a.window.value.until.value
        ==> PendingAt(jobs, ExpireKey(id, a.revision), a.window.value.until.value))
  }

  /** A job row carries the version its key names. */
  predicate JobOk(b: Board, k: JobKey) {
    && k in b.jobs && k.id in b.items
    && (k.PublishKey? ==> b.jobs[k].contentVersion == k.contentVersion)
    && (k.ExpireKey? ==> b.jobs[k].revision == k.revision)
  }

  predicate Disjoint(a: Announcement, a': Announcement) {
    forall p :: p in EXCLUSIVE && Live(a) && Live(a') && p in a.placements && p in a'.placements
      ==> !Overlap(a.window.value.from, a.window.value.until, a'.window.value.from, a'.window.value.until)
  }

  ghost predicate ItemsOk(b: Board, time: int) { forall id :: id in b.items ==> ItemOk(b.jobs, id, b.items[id], time) }

  ghost predicate JobsOk(b: Board) { forall k :: k in b.jobs ==> JobOk(b, k) }

  ghost predicate WindowsOk(items: map<Id, Announcement>) {
    forall i, j :: i in items && j in items && i != j ==> Disjoint(items[i], items[j])
  }

  ghost predicate CanonicalOk(items: map<Id, Announcement>) {
    forall i, j :: i in items && j in items && items[i].canonical && items[j].canonical ==> i == j
  }

  ghost predicate Inv(b: Board, time: int) {
    ItemsOk(b, time) && JobsOk(b) && WindowsOk(b.items) && CanonicalOk(b.items)
  }

  // -------------------------------------------------------------- commands

  lemma SlotsSuit(slots: seq<Slot>, isPublic: bool)
    requires ValidPlacements(slots, isPublic)
    ensures Suits(SlotMap(slots), isPublic)
  {
  }

  /** The jobs of other announcements are not touched. */
  lemma EnsureOthers(jobs: map<JobKey, Job>, id: Id, a: Announcement, k: JobKey)
    requires k.id != id
    ensures k in EnsureJobs(jobs, id, a) <==> k in jobs
    ensures k in jobs ==> EnsureJobs(jobs, id, a)[k] == jobs[k]
  {
  }

  /** Validation and upsert together give the written announcement its jobs. */
  lemma ExecuteItem(b: Board, c: Command, newId: Id, start: int, clock: int)
    requires Execute(b, c, newId, start, clock).Ok?
    requires (c.id.Some? ==> ItemOk(b.jobs, c.id.value, b.items[c.id.value], clock))
    ensures var (b', id) := Execute(b, c, newId, start, clock).value; ItemOk(b'.jobs, id, b'.items[id], clock)
  {
    if TakesWindow(c.action) || c.action == UpdatePlacements {
      SlotsSuit(c.placements, b.items[c.id.value].content.isPublic);
      ExecuteItemPlaced(b, c, newId, start, clock);
    } else {
      ExecuteItemKept(b, c, newId, start, clock);
    }
  }

  lemma ExecuteItemPlaced(b: Board, c: Command, newId: Id, start: int, clock: int)
    requires Execute(b, c, newId, start, clock).Ok? && (TakesWindow(c.action) || c.action == UpdatePlacements)
    requires c.id.Some? && ItemOk(b.jobs, c.id.value, b.items[c.id.value], clock)
    requires Suits(SlotMap(c.placements), b.items[c.id.value].content.isPublic)
    ensures var (b', id) := Execute(b, c, newId, start, clock).value; ItemOk(b'.jobs, id, b'.items[id], clock)
  {
  }

  lemma ExecuteItemKept(b: Board, c: Command, newId: Id, start: int, clock: int)
    requires Execute(b, c, newId, start, clock).Ok? && !TakesWindow(c.action) && c.action != UpdatePlacements
    requires c.id.Some? ==> ItemOk(b.jobs, c.id.value, b.items[c.id.value], clock)
    ensures var (b', id) := Execute(b, c, newId, start, clock).value; ItemOk(b'.jobs, id, b'.items[id], clock)
  {
  }

  lemma ExecuteJobs(b: Board, c: Command, newId: Id, start: int, clock: int)
    requires JobsOk(b) && Execute(b, c, newId, start, clock).Ok?
    ensures JobsOk(Execute(b, c, newId, start, clock).value.0)
  {
  }

  predicate SameWindow(a: Announcement, a': Announcement) {
    a'.placements == a.placements && a'.window == a.window && (Live(a') ==> Live(a))
  }

  /** A command either checks the guard for the window it writes or leaves placements and window alone. */
  lemma ExecuteWindow(b: Board, c: Command, newId: Id, start: int, clock: int, k: Id)
    requires Execute(b, c, newId, start, clock).Ok? && k in b.items
    requires c.id.Some? && k != c.id.value ==> Disjoint(b.items[c.id.value], b.items[k])
    ensures var (b', id) := Execute(b, c, newId, start, clock).value; k != id ==> Disjoint(b'.items[id], b.items[k])
  {
    var (b', id) := Execute(b, c, newId, start, clock).value;
    var after := b'.items[id];
    if TakesWindow(c.action) || c.action == UpdatePlacements {
      if k != id {
        forall p | p in EXCLUSIVE && Live(after) && Live(b.items[k]) && p in after.placements
            && p in b.items[k].placements
          ensures !Overlap(after.window.value.from, after.window.value.until, b.items[k].window.value.from,
                           b.items[k].window.value.until)
        {
          GuardKeepsApart(b.items, id, c.placements, p, after.window.value.from, after.window.value.until, k);
        }
      }
    } else if c.id.Some? {
      assert SameWindow(b.items[id], after);
    }
  }

  lemma GuardKeepsApart(items: map<Id, Announcement>, id: Id, slots: seq<Slot>, p: Placement, from: int,
                        until: Option<int>, k: Id)
    requires Guarded(items, id, SlotNames(slots), from, until) && p in EXCLUSIVE && p in SlotMap(slots)
    requires k in items && k != id && Live(items[k]) && p in items[k].placements
    ensures !Overlap(from, until, items[k].window.value.from, items[k].window.value.until)
  {
    var i :| 0 <= i < |slots| && slots[i].placement == p;
    assert p in SlotNames(slots);
    assert !Taken(items, id, p, from, until);
    assert !Occupies(items[k], p, from, until);
  }

  lemma DisjointSymmetric(a: Announcement, a': Announcement)
    requires Disjoint(a, a')
    ensures Disjoint(a', a)
  {
  }

  lemma ItemLater(jobs: map<JobKey, Job>, id: Id, a: Announcement, time: int, time': int)
    requires ItemOk(jobs, id, a, time) && time <= time'
    ensures ItemOk(jobs, id, a, time')
  {
  }

  lemma ExecuteKeeps(b: Board, c: Command, newId: Id, start: int, clock: int, time: int)
    requires Inv(b, time) && time <= clock && Execute(b, c, newId, start, clock).Ok?
    ensures Inv(Execute(b, c, newId, start, clock).value.0, clock)
  {
    var (b', id) := Execute(b, c, newId, start, clock).value;
    forall k | k in b'.items ensures ItemOk(b'.jobs, k, b'.items[k], clock) {
      if k != id {
        ItemLater(b.jobs, k, b.items[k], time, clock);
        EnsureOthers(b.jobs, id, b'.items[id], ExpireKey(k, b.items[k].revision));
        EnsureOthers(b.jobs, id, b'.items[id], PublishKey(k, b.items[k].contentVersion));
      } else {
        if c.id.Some? { ItemLater(b.jobs, id, b.items[id], time, clock); }
        ExecuteItem(b, c, newId, start, clock);
      }
    }
    ExecuteJobs(b, c, newId, start, clock);
    forall i, j | i in b'.items && j in b'.items && i != j ensures Disjoint(b'.items[i], b'.items[j]) {
      if i == id { ExecuteWindow(b, c, newId, start, clock, j); }
      if j == id { ExecuteWindow(b, c, newId, start, clock, i); DisjointSymmetric(b'.items[j], b'.items[i]); }
    }
  }

  // ---------------------------------------------------------------- worker

  /** The announcement a taken job belongs to keeps its other jobs; the taken one is no longer needed. */
  lemma WorkItem(b: Board, k: JobKey, start: int, clock: int, time: int)
    requires ItemsOk(b, time) && JobsOk(b) && time <= clock && start <= clock && k in b.jobs
    requires b.jobs[k].status == Pending && b.jobs[k].due <= start
    ensures var b' := Work(b, k, start, clock); ItemOk(b'.jobs, k.id, b'.items[k.id], clock)
  {
    assert JobOk(b, k);
    assert ItemOk(b.jobs, k.id, b.items[k.id], time);
  }

  lemma WorkKeeps(b: Board, k: JobKey, start: int, clock: int, time: int)
    requires Inv(b, time) && time <= clock && start <= clock && k in b.jobs && b.jobs[k].status == Pending
    requires b.jobs[k].due <= start
    ensures Inv(Work(b, k, start, clock), clock)
  {
    assert JobOk(b, k);
    var b' := Work(b, k, start, clock);
    forall id | id in b'.items ensures ItemOk(b'.jobs, id, b'.items[id], clock) {
      if id == k.id { WorkItem(b, k, start, clock, time); } else { ItemLater(b.jobs, id, b.items[id], time, clock); }
    }
    forall j | j in b'.jobs ensures JobOk(b', j) { assert JobOk(b, j); }
    WorkWindows(b, k, start, clock);
  }

  lemma StaysDisjoint(a: Announcement, b: Announcement, a': Announcement, b': Announcement)
    requires Disjoint(a, b) && SameWindow(a, a') && SameWindow(b, b')
    ensures Disjoint(a', b')
  {
  }

  lemma WorkedSameWindow(a: Announcement, k: JobKey, job: Job, start: int, clock: int)
    ensures SameWindow(a, Worked(a, k, job, start, clock)) && Worked(a, k, job, start, clock).canonical == a.canonical
  {
  }

  lemma WorkWindows(b: Board, k: JobKey, start: int, clock: int)
    requires WindowsOk(b.items) && CanonicalOk(b.items) && k in b.jobs
    ensures WindowsOk(Work(b, k, start, clock).items) && CanonicalOk(Work(b, k, start, clock).items)
  {
    var b' := Work(b, k, start, clock);
    forall i | i in b.items ensures SameWindow(b.items[i], b'.items[i]) {
      if i == k.id { WorkedSameWindow(b.items[i], k, b.jobs[k], start, clock); }
    }
    forall i, j | i in b'.items && j in b'.items && i != j ensures Disjoint(b'.items[i], b'.items[j]) {
      StaysDisjoint(b.items[i], b.items[j], b'.items[i], b'.items[j]);
    }
  }

  // ------------------------------------------------------------------ runs

  datatype Step =
    | CommandStep(command: Command, newId: Id, start: int, clock: int)
    | JobStep(key: JobKey, start: int, clock: int, maintenance: bool)

  ghost predicate Enabled(b: Board, s: Step, time: int) {
    && s.start <= s.clock && time <= s.clock
    && (s.JobStep? ==> FirstDue(b, s.key, s.start, s.maintenance))
  }

  function Next(b: Board, s: Step): Board {
    match s
    case CommandStep(c, newId, start, clock) =>
      (match Execute(b, c, newId, start, clock) case Ok(done) => done.0 case Err(_) => b)
    case JobStep(k, start, clock, _) => if k in b.jobs then Work(b, k, start, clock) else b
  }

  /** A run: each transaction reads a clock that has not gone back, and the worker takes the job due first. */
  ghost predicate Runs(b: Board, steps: seq<Step>, time: int)
    decreases |steps|
  {
    steps == [] || (Enabled(b, steps[0], time) && Runs(Next(b, steps[0]), steps[1..], steps[0].clock))
  }

  ghost function Run(b: Board, steps: seq<Step>): Board
    decreases |steps|
  {
    if steps == [] then b else Run(Next(b, steps[0]), steps[1..])
  }

  function Clock(steps: seq<Step>, time: int): int { if steps == [] then time else steps[|steps| - 1].clock }

  lemma NextKeeps(b: Board, s: Step, time: int)
    requires Inv(b, time) && Enabled(b, s, time)
    ensures Inv(Next(b, s), s.clock)
  {
    match s
    case CommandStep(c, newId, start, clock) =>
      if Execute(b, c, newId, start, clock).Ok? {
        ExecuteKeeps(b, c, newId, start, clock, time);
      } else {
        InvLater(b, time, clock);
      }
    case JobStep(k, start, clock, _) => WorkKeeps(b, k, start, clock, time);
  }

  lemma InvLater(b: Board, time: int, time': int)
    requires Inv(b, time) && time <= time'
    ensures Inv(b, time')
  {
    forall id | id in b.items ensures ItemOk(b.jobs, id, b.items[id], time') {
      ItemLater(b.jobs, id, b.items[id], time, time');
    }
  }

  lemma {:induction false} RunKeeps(b: Board, steps: seq<Step>, time: int)
    requires Inv(b, time) && Runs(b, steps, time)
    ensures Inv(Run(b, steps), Clock(steps, time))
    decreases |steps|
  {
    if steps != [] {
      NextKeeps(b, steps[0], time);
      RunKeeps(Next(b, steps[0]), steps[1..], steps[0].clock);
      assert steps[1..] != [] ==> steps[1..][|steps| - 2] == steps[|steps| - 1];
    }
  }

  const EMPTY := Board(map[], map[])

  // -------------------------------------------------------------- delivery

  /** In every reachable state the current revision's expiry and the current content's publication are waiting, due on
      time. */
  lemma JobsAlwaysPending(steps: seq<Step>, time: int, id: Id)
    requires Runs(EMPTY, steps, time) && id in Run(EMPTY, steps).items
    ensures var b := Run(EMPTY, steps); var a := b.items[id];
            && (a.state == Published && a.window.Some? && a.window.value.until.Some? ==>
                  PendingAt(b.jobs, ExpireKey(id, a.revision), a.window.value.until.value))
            && (a.state == Scheduled && a.withdrawnAt.None? ==>
                  a.window.Some? && PendingAt(b.jobs, PublishKey(id, a.contentVersion), a.window.value.publishAt))
  {
    RunKeeps(EMPTY, steps, time);
    assert ItemOk(Run(EMPTY, steps).jobs, id, Run(EMPTY, steps).items[id], Clock(steps, time));
  }

  /** With nothing due left for the worker, no published announcement has outlived its window and none waits past its
      time. */
  lemma NothingOverdue(b: Board, time: int, now: int, id: Id)
    requires Inv(b, time) && id in b.items
    requires forall k :: !Eligible(b, k, now, false)
    ensures b.items[id].state == Published ==> !Ended(b.items[id], now)
    ensures b.items[id].state == Scheduled && b.items[id].withdrawnAt.None? ==> now < b.items[id].window.value.publishAt
  {
    var a := b.items[id];
    assert ItemOk(b.jobs, id, a, time);
    assert !Eligible(b, ExpireKey(id, a.revision), now, false);
    assert !Eligible(b, PublishKey(id, a.contentVersion), now, false);
  }

  /** Maintenance holds back publishing only: windows still end on time. */
  lemma MaintenanceStillExpires(b: Board, time: int, now: int, id: Id)
    requires Inv(b, time) && id in b.items && b.items[id].state == Published
    requires forall k :: !Eligible(b, k, now, true)
    ensures !Ended(b.items[id], now)
  {
    assert ItemOk(b.jobs, id, b.items[id], time);
    assert !Eligible(b, ExpireKey(id, b.items[id].revision), now, true);
  }

  /** At every instant at most one announcement is deliverable on an exclusive placement. */
  lemma OneDeliverable(steps: seq<Step>, time: int, p: Placement, now: int, signedIn: bool, i: Id, j: Id)
    requires Runs(EMPTY, steps, time) && p in EXCLUSIVE
    requires i in Run(EMPTY, steps).items && j in Run(EMPTY, steps).items
    requires Deliverable(Run(EMPTY, steps).items[i], p, now, signedIn)
    requires Deliverable(Run(EMPTY, steps).items[j], p, now, signedIn)
    ensures i == j
  {
    RunKeeps(EMPTY, steps, time);
    var items := Run(EMPTY, steps).items;
    assert i != j ==> Disjoint(items[i], items[j]);
  }

  /** Publishing delivers: through the whole window asked for, on every placement asked for. */
  lemma PublishDelivers(b: Board, c: Command, newId: Id, start: int, clock: int, slot: Slot, now: int, signedIn: bool)
    requires Execute(b, c, newId, start, clock).Ok? && c.action == Publish && slot in c.placements
    requires b.items[c.id.value].withdrawnAt.None? && (b.items[c.id.value].content.isPublic || signedIn)
    requires c.from.value <= now && (c.until.Some? ==> now < c.until.value)
    ensures var (b', id) := Execute(b, c, newId, start, clock).value;
            id == c.id.value && Deliverable(b'.items[id], slot.placement, now, signedIn)
  {
    var i :| 0 <= i < |c.placements| && c.placements[i] == slot;
    assert c.placements[i].placement in SlotMap(c.placements);
  }

  /** A scheduled announcement whose job the worker takes within the window is delivered from then on. */
  lemma ScheduleDelivers(b: Board, time: int, id: Id, start: int, clock: int, p: Placement, now: int, signedIn: bool)
    requires Inv(b, time) && id in b.items && b.items[id].state == Scheduled && b.items[id].withdrawnAt.None?
    requires (b.items[id].content.isPublic || signedIn)
    requires b.items[id].window.value.publishAt <= start <= clock && !Ended(b.items[id], clock)
    requires p in b.items[id].placements
    requires b.items[id].window.value.from <= now
    requires (b.items[id].window.value.until.Some? ==> now < b.items[id].window.value.until.value)
    ensures Eligible(b, PublishKey(id, b.items[id].contentVersion), start, false)
    ensures Deliverable(Work(b, PublishKey(id, b.items[id].contentVersion), start, clock).items[id], p, now, signedIn)
  {
    assert ItemOk(b.jobs, id, b.items[id], time);
    assert JobOk(b, PublishKey(id, b.items[id].contentVersion));
  }

  // ------------------------------------------------------------- lifecycle

  function Rank(s: State): nat {
    match s case Draft => 0 case Scheduled => 1 case Published => 2 case Expired => 3 case Archived => 4
  }

  /** One way only: states never go back, versions never shrink, withdrawal and first publication are for good. */
  predicate Evolves(a: Announcement, a': Announcement) {
    && Rank(a.state) <= Rank(a'.state)
    && a.contentVersion <= a'.contentVersion && a.revision <= a'.revision && a.version <= a'.version
    && (a'.version == a.version ==> a' == a)
    && (a.withdrawnAt.Some? ==> a'.withdrawnAt == a.withdrawnAt)
    && (a.firstPublishedAt.Some? ==> a'.firstPublishedAt == a.firstPublishedAt)
    && (a.canonical ==> a'.canonical)
    && (a.state in {Expired, Archived} ==>
          a'.window == a.window && a'.content == a.content && a'.placements == a.placements)
  }

  ghost predicate BoardEvolves(b: Board, b': Board) {
    forall id :: id in b.items ==> id in b'.items && Evolves(b.items[id], b'.items[id])
  }

  lemma EvolvesTwice(a: Board, b: Board, c: Board)
    requires BoardEvolves(a, b) && BoardEvolves(b, c)
    ensures BoardEvolves(a, c)
  {
  }

  lemma SelfEvolves(b: Board)
    ensures BoardEvolves(b, b)
  {
  }

  lemma ExecuteEvolves(b: Board, c: Command, newId: Id, start: int, clock: int)
    requires Execute(b, c, newId, start, clock).Ok?
    ensures BoardEvolves(b, Execute(b, c, newId, start, clock).value.0)
  {
    SelfEvolves(b);
    if c.id.Some? { CommandEvolves(b, c, newId, start, clock); }
  }

  lemma CommandEvolves(b: Board, c: Command, newId: Id, start: int, clock: int)
    requires Execute(b, c, newId, start, clock).Ok? && c.id.Some?
    ensures var (b', id) := Execute(b, c, newId, start, clock).value;
            id == c.id.value && id in b.items && Evolves(b.items[id], b'.items[id])
            && b'.items == b.items[id := b'.items[id]]
  {
  }

  lemma WorkEvolves(b: Board, k: JobKey, start: int, clock: int)
    requires k in b.jobs
    ensures BoardEvolves(b, Work(b, k, start, clock))
  {
  }

  lemma NextEvolves(b: Board, s: Step)
    ensures BoardEvolves(b, Next(b, s))
  {
    SelfEvolves(b);
    match s
    case CommandStep(c, newId, start, clock) =>
      if Execute(b, c, newId, start, clock).Ok? { ExecuteEvolves(b, c, newId, start, clock); }
    case JobStep(k, start, clock, _) => if k in b.jobs { WorkEvolves(b, k, start, clock); }
  }

  lemma {:induction false} RunEvolves(b: Board, steps: seq<Step>)
    ensures BoardEvolves(b, Run(b, steps))
    decreases |steps|
  {
    if steps != [] {
      NextEvolves(b, steps[0]);
      RunEvolves(Next(b, steps[0]), steps[1..]);
      EvolvesTwice(b, Next(b, steps[0]), Run(b, steps));
    }
  }

  /** Once withdrawn, an announcement is never delivered again, whatever is done to it. */
  lemma WithdrawnForGood(b: Board, steps: seq<Step>, id: Id, p: Placement, now: int, signedIn: bool)
    requires id in b.items && b.items[id].withdrawnAt.Some?
    ensures id in Run(b, steps).items && !Deliverable(Run(b, steps).items[id], p, now, signedIn)
  {
    RunEvolves(b, steps);
  }
}
