/** Announcement lifecycle: the eight commands, the versioned jobs and the worker, as functions of the stored rows.
    internal/platform/announcements_store.go and announcements_public.go. */
module Announcements {
  import opened Wrappers

  type Id = nat

  datatype State = Draft | Scheduled | Published | Expired | Archived
  datatype Placement = PinnedList | EntryPopup | PostLoginPopup | PublicHomeBanner | DashboardSummary
  datatype Kind = System | NewModels | GameEvents | MaintenanceNote | Important | Acknowledgements
  /** `wellFormed` stands for the title, text and acknowledgement checks. */
  datatype Content = Content(kind: Kind, isPublic: bool, wellFormed: bool, text: string)
  datatype Slot = Slot(placement: Placement, order: int)
  datatype Window = Window(publishAt: int, from: int, until: Option<int>)

  datatype Announcement = Announcement(state: State, contentVersion: nat, revision: nat, version: nat,
                                       window: Option<Window>,
                                       withdrawnAt: Option<int>, firstPublishedAt: Option<int>, expiredReason: string,
                                       canonical: bool, content: Content, placements: map<Placement, int>)

  datatype JobKey = PublishKey(id: Id, contentVersion: nat) | ExpireKey(id: Id, revision: nat)
  datatype JobStatus = Pending | Done | Obsolete
  datatype Job = Job(contentVersion: nat, revision: nat, due: int, status: JobStatus)

  datatype Board = Board(items: map<Id, Announcement>, jobs: map<JobKey, Job>)

  datatype Action = Save | UpdateContentOnly | Publish | Schedule | Withdraw | Archive | ReNotify | UpdatePlacements
  datatype Command = Command(id: Option<Id>, action: Action, content: Option<Content>,
                             publishAt: Option<int>, from: Option<int>, until: Option<int>, placements: seq<Slot>)
  datatype Error = Invalid | Conflict | WindowTaken | NotFound

  // ------------------------------------------------------------ validation

  const EXCLUSIVE: set<Placement> := {EntryPopup, PublicHomeBanner}

  /** Distinct placements with an order in range, the two public surfaces for public content only. */
  predicate ValidPlacements(slots: seq<Slot>, isPublic: bool) {
    && (forall i :: 0 <= i < |slots| ==>
          0 <= slots[i].order <= 1_000_000 && (slots[i].placement in EXCLUSIVE ==> isPublic))
    && (forall i, j :: 0 <= i < j < |slots| ==> slots[i].placement != slots[j].placement)
  }

  function SlotMap(slots: seq<Slot>): (m: map<Placement, int>)
    ensures forall p :: p in m ==> exists i :: 0 <= i < |slots| && slots[i].placement == p
    ensures forall i :: 0 <= i < |slots| ==> slots[i].placement in m
  {
    if slots == [] then map[]
    else SlotMap(slots[..|slots| - 1])[slots[|slots| - 1].placement := slots[|slots| - 1].order]
  }

  predicate Suits(placements: map<Placement, int>, isPublic: bool) {
    forall p :: p in placements && p in EXCLUSIVE ==> isPublic
  }

  /** Half-open ranges, unbounded above when there is no end. */
  predicate Overlap(from: int, until: Option<int>, from': int, until': Option<int>) {
    (until'.None? || from < until'.value) && (until.None? || from' < until.value)
  }

  /** On the way to readers, or with them already. */
  predicate Live(a: Announcement) { a.state in {Scheduled, Published} && a.withdrawnAt.None? && a.window.Some? }

  predicate Occupies(a: Announcement, p: Placement, from: int, until: Option<int>) {
    Live(a) && p in a.placements && Overlap(a.window.value.from, a.window.value.until, from, until)
  }

  predicate Taken(items: map<Id, Announcement>, id: Id, p: Placement, from: int, until: Option<int>) {
    exists k :: k in items && k != id && Occupies(items[k], p, from, until)
  }

  function SlotNames(slots: seq<Slot>): set<Placement> { set i | 0 <= i < |slots| :: slots[i].placement }

  predicate Guarded(items: map<Id, Announcement>, id: Id, names: set<Placement>, from: int, until: Option<int>) {
    && (EntryPopup in names ==> !Taken(items, id, EntryPopup, from, until))
    && (PublicHomeBanner in names ==> !Taken(items, id, PublicHomeBanner, from, until))
  }

  const BLANK := Announcement(Draft, 0, 0, 0, None, None, None, "", false, Content(System, false, false, ""), map[])

  function Target(b: Board, c: Command): Result<Announcement, Error> {
    if c.id.None? then (if c.action != Save then Err(Invalid) else Ok(BLANK))
    else if c.id.value !in b.items then Err(NotFound)
    else Ok(b.items[c.id.value])
  }

  function ContentFault(a: Announcement, c: Command): Option<Error> {
    if c.action == Save || c.action == UpdateContentOnly then
      if c.action == Save && a.state != Draft then Some(Conflict)
      else if c.action == UpdateContentOnly && (a.state !in {Scheduled, Published} || a.withdrawnAt.Some?)
        then Some(Conflict)
      else if c.content.None? || !c.content.value.wellFormed then Some(Invalid)
      else if c.id.None? && c.content.value.kind == Acknowledgements && !c.content.value.isPublic then Some(Invalid)
      else if a.canonical && c.content.value.kind != Acknowledgements then Some(Invalid)
      else if !Suits(a.placements, c.content.value.isPublic) then Some(Invalid)
      else None
    else if c.content.Some? then Some(Invalid)
    else None
  }

  predicate TakesWindow(action: Action) { action == Publish || action == Schedule }

  predicate StrayArguments(c: Command) {
    && !TakesWindow(c.action)
    && (c.publishAt.Some? || c.from.Some? || c.until.Some? || (c.action != UpdatePlacements && c.placements != []))
  }

  predicate ValidWindow(c: Command, clock: int) {
    && c.publishAt.Some? && c.from.Some? && c.publishAt.value <= c.from.value
    && (c.until.Some? ==> c.from.value < c.until.value && clock < c.until.value)
    && (c.action == Schedule ==> clock < c.publishAt.value) && (c.action == Publish ==> c.publishAt.value <= clock)
  }

  predicate Active(a: Announcement, clock: int) {
    && a.window.Some? && a.window.value.publishAt <= clock && a.window.value.from <= clock
    && (a.window.value.until.Some? ==> clock < a.window.value.until.value)
  }

  function ActionFault(b: Board, a: Announcement, c: Command, clock: int): Option<Error> {
    match c.action
    case Publish | Schedule =>
      if a.state != Draft && a.state != Scheduled then Some(Conflict)
      else if !ValidWindow(c, clock) || !ValidPlacements(c.placements, a.content.isPublic) then Some(Invalid)
      else if c.id.Some? && !Guarded(b.items, c.id.value, SlotNames(c.placements), c.from.value, c.until)
        then Some(WindowTaken)
      else None
    case ReNotify => if a.state != Published || a.withdrawnAt.Some? || !Active(a, clock) then Some(Invalid) else None
    case UpdatePlacements =>
      if a.state != Published || a.withdrawnAt.Some? || !Active(a, clock) then Some(Invalid)
      else if !ValidPlacements(c.placements, a.content.isPublic) then Some(Invalid)
      else if c.id.Some? && !Guarded(b.items, c.id.value, SlotNames(c.placements), a.window.value.from,
                                     a.window.value.until)
        then Some(WindowTaken)
      else None
    case Withdraw => if a.state == Draft || a.withdrawnAt.Some? then Some(Invalid) else None
    case Archive => if a.state == Draft || a.state == Archived then Some(Invalid) else None
    case Save | UpdateContentOnly => None
  }

  function Validate(b: Board, c: Command, clock: int): Result<Announcement, Error> {
    var a :- Target(b, c);
    var fault := ContentFault(a, c);
    if fault.Some? then Err(fault.value)
    else if StrayArguments(c) then Err(Invalid)
    else
      var refusal := ActionFault(b, a, c, clock);
      if refusal.Some? then Err(refusal.value) else Ok(a)
  }

  // --------------------------------------------------------------- effects

  function Initial(canonical: bool): Announcement {
    BLANK.(contentVersion := 1, revision := 1, version := 1, canonical := canonical,
           placements := if canonical then map[PinnedList := 0, EntryPopup := 0] else map[])
  }

  function WithContent(a: Announcement, isNew: bool, content: Content): Announcement {
    var step := if isNew then 0 else 1;
    a.(contentVersion := a.contentVersion + step, version := a.version + step, content := content,
       canonical := a.canonical || content.kind == Acknowledgements)
  }

  function FirstPublished(a: Announcement, state: State, start: int): Option<int> {
    if state == Published && a.firstPublishedAt.None? then Some(start) else a.firstPublishedAt
  }

  function Transition(a: Announcement, c: Command, start: int): Announcement
    requires TakesWindow(c.action) ==> c.publishAt.Some? && c.from.Some?
  {
    match c.action
    case Publish | Schedule =>
      var state := if c.action == Schedule then Scheduled else Published;
      a.(state := state, version := a.version + 1, window := Some(Window(c.publishAt.value, c.from.value, c.until)),
         firstPublishedAt := FirstPublished(a, state, start), placements := SlotMap(c.placements))
    case UpdatePlacements => a.(version := a.version + 1, placements := SlotMap(c.placements))
    case Withdraw => a.(version := a.version + 1, withdrawnAt := Some(start))
    case Archive => a.(version := a.version + 1, state := Archived)
    case ReNotify => a.(version := a.version + 1, revision := a.revision + 1)
    case Save | UpdateContentOnly => a
  }

  function EnsurePublishJob(jobs: map<JobKey, Job>, id: Id, a: Announcement): map<JobKey, Job> {
    if a.state == Scheduled && a.window.Some?
    then jobs[PublishKey(id, a.contentVersion) := Job(a.contentVersion, a.revision, a.window.value.publishAt, Pending)]
    else jobs
  }

  function EnsureExpireJob(jobs: map<JobKey, Job>, id: Id, a: Announcement): map<JobKey, Job> {
    if a.window.Some? && a.window.value.until.Some?
    then jobs[ExpireKey(id, a.revision) := Job(a.contentVersion, a.revision, a.window.value.until.value, Pending)]
    else jobs
  }

  /** Jobs are upserted under their version, so that a repeated command revives them instead of adding to them. */
  function EnsureJobs(jobs: map<JobKey, Job>, id: Id, a: Announcement): map<JobKey, Job> {
    if a.state in {Scheduled, Published} then EnsureExpireJob(EnsurePublishJob(jobs, id, a), id, a) else jobs
  }

  predicate CanonicalTaken(items: map<Id, Announcement>, id: Id) {
    exists k :: k in items && k != id && items[k].canonical
  }

  function After(a: Announcement, c: Command, start: int): Announcement
    requires TakesWindow(c.action) ==> c.publishAt.Some? && c.from.Some?
  {
    var isNew := c.id.None?;
    var base := if isNew then Initial(c.content.Some? && c.content.value.kind == Acknowledgements) else a;
    Transition(if c.content.Some? then WithContent(base, isNew, c.content.value) else base, c, start)
  }

  lemma ValidatedWindow(b: Board, c: Command, clock: int)
    requires Validate(b, c, clock).Ok?
    ensures TakesWindow(c.action) ==> c.publishAt.Some? && c.from.Some?
  {
  }

  /** One command: `newId` names a new announcement, `start` and `clock` are the transaction's two readings of the
      time. */
  function Execute(b: Board, c: Command, newId: Id, start: int, clock: int): Result<(Board, Id), Error> {
    var a :- Validate(b, c, clock);
    var id := if c.id.Some? then c.id.value else newId;
    ValidatedWindow(b, c, clock);
    var after := After(a, c, start);
    if c.id.None? && newId in b.items then Err(Conflict)
    else if after.canonical && CanonicalTaken(b.items, id) then Err(Conflict)
    else Ok((Board(b.items[id := after], EnsureJobs(b.jobs, id, after)), id))
  }

  // ---------------------------------------------------------------- worker

  /** A job the worker may take: pending and due, publishing only outside maintenance. */
  predicate Eligible(b: Board, k: JobKey, start: int, maintenance: bool) {
    k in b.jobs && b.jobs[k].status == Pending && b.jobs[k].due <= start && (k.PublishKey? ==> !maintenance)
  }

  ghost predicate FirstDue(b: Board, k: JobKey, start: int, maintenance: bool) {
    && Eligible(b, k, start, maintenance)
    && forall j :: Eligible(b, j, start, maintenance) ==> b.jobs[k].due <= b.jobs[j].due
  }

  predicate Publishes(a: Announcement, k: JobKey, job: Job, clock: int) {
    && k.PublishKey? && a.state == Scheduled && a.withdrawnAt.None? && job.contentVersion == a.contentVersion
    && a.window.Some? && a.window.value.publishAt <= clock
  }

  predicate Ended(a: Announcement, clock: int) {
    a.window.Some? && a.window.value.until.Some? && a.window.value.until.value <= clock
  }

  predicate Expires(a: Announcement, k: JobKey, job: Job, clock: int) {
    k.ExpireKey? && a.state == Published && job.revision == a.revision && Ended(a, clock)
  }

  function Worked(a: Announcement, k: JobKey, job: Job, start: int, clock: int): Announcement {
    if Publishes(a, k, job, clock) then
      if Ended(a, clock) then a.(state := Expired, version := a.version + 1, expiredReason := "MISSED_PUBLISH_WINDOW")
      else a.(state := Published, version := a.version + 1, firstPublishedAt := FirstPublished(a, Published, start))
    else if Expires(a, k, job, clock)
      then a.(state := Expired, version := a.version + 1, expiredReason := "VISIBLE_WINDOW_ENDED")
    else a
  }

  /** What the worker does with one job it has taken. */
  function Work(b: Board, k: JobKey, start: int, clock: int): Board
    requires k in b.jobs
  {
    if k.id !in b.items then b
    else
      var a, job := b.items[k.id], b.jobs[k];
      var status := if Publishes(a, k, job, clock) || Expires(a, k, job, clock) then Done else Obsolete;
      Board(b.items[k.id := Worked(a, k, job, start, clock)], b.jobs[k := job.(status := status)])
  }

  // -------------------------------------------------------------- delivery

  /** What a reader, signed in or not, is shown on a placement at an instant. */
  predicate Deliverable(a: Announcement, p: Placement, now: int, signedIn: bool) {
    && a.withdrawnAt.None? && a.firstPublishedAt.Some? && (a.content.isPublic || signedIn) && a.state == Published
    && p in a.placements
    && a.window.Some? && a.window.value.publishAt <= now && a.window.value.from <= now
    && (a.window.value.until.Some? ==> now < a.window.value.until.value)
  }
}
