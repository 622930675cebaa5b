/** What each announcement command and job does to its row, and when a command is taken, told from the request and the
    rows alone. */
module AnnouncementEffects {
  import opened Wrappers
  import opened Announcements
  import opened AnnouncementRuns

  // -------------------------------------------------------- what a command does

  /** Only this announcement's row moved; it was there before. */
  ghost predicate OnlyItem(b: Board, b': Board, id: Id) {
    id in b.items && id in b'.items && b'.items == b.items[id := b'.items[id]]
  }

  /** A row showing exactly these slots, each with the order asked for. */
  ghost predicate ShowsSlots(placements: map<Placement, int>, slots: seq<Slot>) {
    && (forall p :: p in placements <==> exists i :: 0 <= i < |slots| && slots[i].placement == p)
    && (forall i :: 0 <= i < |slots| ==>
          slots[i].placement in placements && placements[slots[i].placement] == slots[i].order)
  }

  lemma SlotsShown(slots: seq<Slot>)
    requires forall i, j :: 0 <= i < j < |slots| ==> slots[i].placement != slots[j].placement
    ensures ShowsSlots(SlotMap(slots), slots)
  {
    forall i | 0 <= i < |slots| ensures SlotMap(slots)[slots[i].placement] == slots[i].order { SlotOrder(slots, i); }
  }

  lemma {:induction false} SlotOrder(slots: seq<Slot>, i: nat)
    requires forall i, j :: 0 <= i < j < |slots| ==> slots[i].placement != slots[j].placement
    requires i < |slots|
    ensures SlotMap(slots)[slots[i].placement] == slots[i].order
    decreases |slots|
  {
    var n := |slots| - 1;
    if i < n {
      assert slots[..n][i] == slots[i];
      SlotOrder(slots[..n], i);
    }
  }

  /** What the row of an existing announcement becomes. */
  ghost predicate Becomes(a: Announcement, a': Announcement, c: Command, start: int) {
    match c.action
    case Withdraw => a' == a.(version := a.version + 1, withdrawnAt := Some(start))
    case Archive => a' == a.(version := a.version + 1, state := Archived)
    case ReNotify => a' == a.(version := a.version + 1, revision := a.revision + 1)
    case UpdatePlacements =>
      a' == a.(version := a.version + 1, placements := a'.placements) && ShowsSlots(a'.placements, c.placements)
    case Save | UpdateContentOnly =>
      && c.content.Some?
      && a' == a.(version := a.version + 1, contentVersion := a.contentVersion + 1, content := c.content.value,
                  canonical := a.canonical || c.content.value.kind == Acknowledgements)
    case Publish =>
      && c.publishAt.Some? && c.from.Some? && ShowsSlots(a'.placements, c.placements)
      && a' == a.(version := a.version + 1, state := Published, placements := a'.placements,
                  window := Some(Window(c.publishAt.value, c.from.value, c.until)),
                  firstPublishedAt := if a.firstPublishedAt.None? then Some(start) else a.firstPublishedAt)
    case Schedule =>
      && c.publishAt.Some? && c.from.Some? && ShowsSlots(a'.placements, c.placements)
      && a' == a.(version := a.version + 1, state := Scheduled, placements := a'.placements,
                  window := Some(Window(c.publishAt.value, c.from.value, c.until)))
  }

  /** An accepted command on an existing announcement does exactly what it is named for, to that row only. */
  lemma CommandDoes(b: Board, c: Command, newId: Id, start: int, clock: int)
    requires Execute(b, c, newId, start, clock).Ok? && c.id.Some?
    ensures var (b', id) := Execute(b, c, newId, start, clock).value;
            id == c.id.value && OnlyItem(b, b', id) && Becomes(b.items[id], b'.items[id], c, start)
  {
    CommandRow(b, c, newId, start, clock);
    AfterBecomes(b.items[c.id.value], c, start);
  }

  /** What an accepted command carries, and where its effect goes. */
  lemma CommandRow(b: Board, c: Command, newId: Id, start: int, clock: int)
    requires Execute(b, c, newId, start, clock).Ok? && c.id.Some?
    ensures c.id.value in b.items && Carries(c)
    ensures var (b', id) := Execute(b, c, newId, start, clock).value;
            id == c.id.value && b'.items == b.items[id := After(b.items[id], c, start)]
  {
  }

  predicate Carries(c: Command) {
    && (c.content.Some? <==> c.action == Save || c.action == UpdateContentOnly)
    && (c.action == Publish || c.action == Schedule ==> c.publishAt.Some? && c.from.Some?)
    && (c.action in {Publish, Schedule, UpdatePlacements} ==>
          forall i, j :: 0 <= i < j < |c.placements| ==> c.placements[i].placement != c.placements[j].placement)
  }

  lemma AfterBecomes(a: Announcement, c: Command, start: int)
    requires c.id.Some? && Carries(c)
    ensures Becomes(a, After(a, c, start), c, start)
  {
    if c.action in {Publish, Schedule, UpdatePlacements} {
      SlotsShown(c.placements);
      SlotsBecome(a, c, start);
    } else {
      RestBecomes(a, c, start);
    }
  }

  lemma SlotsBecome(a: Announcement, c: Command, start: int)
    requires c.id.Some? && Carries(c) && c.action in {Publish, Schedule, UpdatePlacements}
    requires ShowsSlots(SlotMap(c.placements), c.placements)
    ensures Becomes(a, After(a, c, start), c, start)
  {
    assert After(a, c, start).placements == SlotMap(c.placements);
  }

  lemma RestBecomes(a: Announcement, c: Command, start: int)
    requires c.id.Some? && Carries(c) && c.action !in {Publish, Schedule, UpdatePlacements}
    ensures Becomes(a, After(a, c, start), c, start)
  {
  }

  /** A new announcement is a draft of the content sent, of the first version, shown nowhere; an acknowledgements page
      starts with its two fixed places. */
  lemma SaveCreates(b: Board, c: Command, newId: Id, start: int, clock: int)
    requires Execute(b, c, newId, start, clock).Ok? && c.id.None?
    ensures var (b', id) := Execute(b, c, newId, start, clock).value;
            && id == newId && id !in b.items && b'.items == b.items[id := b'.items[id]] && c.content.Some?
            && var page := c.content.value.kind == Acknowledgements;
               b'.items[id] == Announcement(Draft, 1, 1, 1, None, None, None, "", page, c.content.value,
                                            if page then map[PinnedList := 0, EntryPopup := 0] else map[])
  {
  }

  /** After an accepted withdrawal the announcement is never delivered again, on any placement, at any time, to anyone,
      whatever is done after it. */
  lemma WithdrawalEnds(b: Board, c: Command, newId: Id, start: int, clock: int, steps: seq<Step>,
                       p: Placement, now: int, signedIn: bool)
    requires Execute(b, c, newId, start, clock).Ok? && c.action == Withdraw
    ensures var (b', id) := Execute(b, c, newId, start, clock).value;
            id in Run(b', steps).items && !Deliverable(Run(b', steps).items[id], p, now, signedIn)
  {
    assert c.id.Some?;
    CommandDoes(b, c, newId, start, clock);
    var (b', id) := Execute(b, c, newId, start, clock).value;
    WithdrawnForGood(b', steps, id, p, now, signedIn);
  }

  /** Nor is an archived one. */
  lemma ArchivalEnds(b: Board, c: Command, newId: Id, start: int, clock: int, steps: seq<Step>,
                     p: Placement, now: int, signedIn: bool)
    requires Execute(b, c, newId, start, clock).Ok? && c.action == Archive
    ensures var (b', id) := Execute(b, c, newId, start, clock).value;
            id in Run(b', steps).items && !Deliverable(Run(b', steps).items[id], p, now, signedIn)
  {
    assert c.id.Some?;
    CommandDoes(b, c, newId, start, clock);
    RunEvolves(Execute(b, c, newId, start, clock).value.0, steps);
  }

  // ------------------------------------------------------ when a command is taken

  /** Nothing but its target. */
  predicate Bare(c: Command) {
    c.content.None? && c.publishAt.None? && c.from.None? && c.until.None? && c.placements == []
  }

  /** Ranges with no instant in common. */
  predicate Apart(from: int, until: Option<int>, from': int, until': Option<int>) {
    (until.Some? && until.value <= from') || (until'.Some? && until'.value <= from)
  }

  /** No other announcement on its way or published holds one of the two exclusive places of these slots meanwhile. */
  ghost predicate Free(items: map<Id, Announcement>, id: Id, slots: seq<Slot>, from: int, until: Option<int>) {
    forall k, i :: k in items && k != id && 0 <= i < |slots| && slots[i].placement in {EntryPopup, PublicHomeBanner}
                   && items[k].state in {Scheduled, Published} && items[k].withdrawnAt.None? && items[k].window.Some?
                   && slots[i].placement in items[k].placements
      ==> Apart(items[k].window.value.from, items[k].window.value.until, from, until)
  }

  lemma FreeExactly(items: map<Id, Announcement>, id: Id, slots: seq<Slot>, from: int, until: Option<int>)
    ensures Guarded(items, id, SlotNames(slots), from, until) <==> Free(items, id, slots, from, until)
  {
    if Guarded(items, id, SlotNames(slots), from, until) {
      forall k, i | k in items && k != id && 0 <= i < |slots| && slots[i].placement in {EntryPopup, PublicHomeBanner}
                    && Live(items[k]) && slots[i].placement in items[k].placements
        ensures Apart(items[k].window.value.from, items[k].window.value.until, from, until)
      {
        assert slots[i].placement in SlotNames(slots);
        assert !Occupies(items[k], slots[i].placement, from, until);
      }
    }
    if Free(items, id, slots, from, until) {
      forall p | p in {EntryPopup, PublicHomeBanner} && p in SlotNames(slots)
        ensures !Taken(items, id, p, from, until)
      {
        var i :| 0 <= i < |slots| && slots[i].placement == p;
        forall k | k in items && k != id ensures !Occupies(items[k], p, from, until) {
        }
      }
    }
  }

  /** Each place once, in range, and the two public surfaces only for public content. */
  predicate GoodSlots(slots: seq<Slot>, isPublic: bool) {
    && (forall i :: 0 <= i < |slots| ==> 0 <= slots[i].order <= 1_000_000)
    && (forall i, j :: 0 <= i < j < |slots| ==> slots[i].placement != slots[j].placement)
    && (forall i :: 0 <= i < |slots| && slots[i].placement in {EntryPopup, PublicHomeBanner} ==> isPublic)
  }

  /** On display at an instant, or bound to be once published. */
  predicate Showing(a: Announcement, clock: int) {
    && a.state == Published && a.withdrawnAt.None? && a.window.Some?
    && a.window.value.publishAt <= clock && a.window.value.from <= clock
    && (a.window.value.until.Some? ==> clock < a.window.value.until.value)
  }

  /** The command fits the announcement it names, at this instant. */
  ghost predicate Fits(b: Board, c: Command, clock: int)
    requires c.id.Some? && c.id.value in b.items
  {
    var id := c.id.value;
    var a := b.items[id];
    match c.action
    case Withdraw => Bare(c) && a.state != Draft && a.withdrawnAt.None?
    case Archive => Bare(c) && a.state != Draft && a.state != Archived
    case ReNotify => Bare(c) && Showing(a, clock)
    case UpdatePlacements =>
      && c.content.None? && c.publishAt.None? && c.from.None? && c.until.None? && Showing(a, clock)
      && GoodSlots(c.placements, a.content.isPublic)
      && Free(b.items, id, c.placements, a.window.value.from, a.window.value.until)
    case Publish | Schedule =>
      && c.content.None? && a.state in {Draft, Scheduled} && c.publishAt.Some? && c.from.Some?
      && c.publishAt.value <= c.from.value && (c.until.Some? ==> c.from.value < c.until.value && clock < c.until.value)
      && (if c.action == Publish then c.publishAt.value <= clock else clock < c.publishAt.value)
      && GoodSlots(c.placements, a.content.isPublic) && Free(b.items, id, c.placements, c.from.value, c.until)
    case Save | UpdateContentOnly =>
      && c.content.Some? && c.content.value.wellFormed
      && c.publishAt.None? && c.from.None? && c.until.None? && c.placements == []
      && (if c.action == Save then a.state == Draft else a.state in {Scheduled, Published} && a.withdrawnAt.None?)
      && (a.canonical ==> c.content.value.kind == Acknowledgements)
      && (EntryPopup in a.placements || PublicHomeBanner in a.placements ==> c.content.value.isPublic)
  }

  /** It would not make a second acknowledgements page. */
  ghost predicate OnePage(b: Board, c: Command) {
    c.content.Some? && c.content.value.kind == Acknowledgements ==>
      forall k :: k in b.items && c.id != Some(k) ==> !b.items[k].canonical
  }

  /** A command on an existing announcement is taken if and only if it fits and makes no second acknowledgements
      page. */
  lemma CommandTakenExactly(b: Board, c: Command, newId: Id, start: int, clock: int)
    requires CanonicalOk(b.items) && c.id.Some? && c.id.value in b.items
    ensures Execute(b, c, newId, start, clock).Ok? <==> Fits(b, c, clock) && OnePage(b, c)
  {
    ValidatesExactly(b, c, clock);
    ExecuteForm(b, c, newId, start, clock);
  }

  lemma ExecuteForm(b: Board, c: Command, newId: Id, start: int, clock: int)
    requires CanonicalOk(b.items) && c.id.Some? && c.id.value in b.items
    ensures Execute(b, c, newId, start, clock).Ok? <==> Validate(b, c, clock).Ok? && OnePage(b, c)
  {
    var id := c.id.value;
    if Validate(b, c, clock).Ok? {
      ValidatedWindow(b, c, clock);
      AfterCanonical(b.items[id], c, start);
      assert CanonicalTaken(b.items, id) <==> exists k :: k in b.items && k != id && b.items[k].canonical;
    }
  }

  lemma AfterCanonical(a: Announcement, c: Command, start: int)
    requires c.id.Some? && (TakesWindow(c.action) ==> c.publishAt.Some? && c.from.Some?)
    ensures After(a, c, start).canonical <==>
              a.canonical || (c.content.Some? && c.content.value.kind == Acknowledgements)
  {
  }

  lemma ValidatesExactly(b: Board, c: Command, clock: int)
    requires c.id.Some? && c.id.value in b.items
    ensures Validate(b, c, clock).Ok? <==> Fits(b, c, clock)
  {
    match c.action
    case Publish => WindowFits(b, c, clock);
    case Schedule => WindowFits(b, c, clock);
    case UpdatePlacements => PlacementsFit(b, c, clock);
    case _ =>
  }

  lemma WindowFits(b: Board, c: Command, clock: int)
    requires c.id.Some? && c.id.value in b.items && (c.action == Publish || c.action == Schedule)
    ensures Validate(b, c, clock).Ok? <==> Fits(b, c, clock)
  {
    GoodSlotsExactly(c.placements, b.items[c.id.value].content.isPublic);
    if c.from.Some? { FreeExactly(b.items, c.id.value, c.placements, c.from.value, c.until); }
  }

  lemma PlacementsFit(b: Board, c: Command, clock: int)
    requires c.id.Some? && c.id.value in b.items && c.action == UpdatePlacements
    ensures Validate(b, c, clock).Ok? <==> Fits(b, c, clock)
  {
    var a := b.items[c.id.value];
    GoodSlotsExactly(c.placements, a.content.isPublic);
    if a.window.Some? {
      FreeExactly(b.items, c.id.value, c.placements, a.window.value.from, a.window.value.until);
    }
  }

  lemma GoodSlotsExactly(slots: seq<Slot>, isPublic: bool)
    ensures ValidPlacements(slots, isPublic) <==> GoodSlots(slots, isPublic)
  {
  }

  /** A new announcement is taken if and only if it is a save of well-formed content and nothing else, an
      acknowledgements page public and the only one. */
  lemma SaveTakenExactly(b: Board, c: Command, newId: Id, start: int, clock: int)
    requires c.id.None? && newId !in b.items
    ensures Execute(b, c, newId, start, clock).Ok? <==>
              && c.action == Save && c.content.Some? && c.content.value.wellFormed
              && c.publishAt.None? && c.from.None? && c.until.None? && c.placements == []
              && (c.content.value.kind == Acknowledgements ==> c.content.value.isPublic) && OnePage(b, c)
  {
    assert CanonicalTaken(b.items, newId) <==> exists k :: k in b.items && k != newId && b.items[k].canonical;
  }

  // ------------------------------------------------------------ what a job does

  /** The publication of the content as it now stands, due for an announcement still scheduled. */
  predicate PublicationDue(a: Announcement, k: JobKey, job: Job, clock: int) {
    && k.PublishKey? && a.state == Scheduled && a.withdrawnAt.None? && job.contentVersion == a.contentVersion
    && a.window.Some? && a.window.value.publishAt <= clock
  }

  predicate Over(a: Announcement, clock: int) {
    a.window.Some? && a.window.value.until.Some? && a.window.value.until.value <= clock
  }

  /** A job publishes what is due, or ends it at once if its window is already over; it ends the showing of the current
      revision once its window is over; any other job is obsolete and changes no announcement. */
  lemma JobDoes(b: Board, k: JobKey, start: int, clock: int)
    requires k in b.jobs && k.id in b.items
    ensures var b' := Work(b, k, start, clock);
            var a, a', job := b.items[k.id], b'.items[k.id], b.jobs[k];
            var ends := k.ExpireKey? && a.state == Published && job.revision == a.revision && Over(a, clock);
            && b'.items == b.items[k.id := a'] && b'.jobs == b.jobs[k := b'.jobs[k]]
            && (PublicationDue(a, k, job, clock) && !Over(a, clock) ==>
                  a' == a.(state := Published, version := a.version + 1,
                           firstPublishedAt := if a.firstPublishedAt.None? then Some(start) else a.firstPublishedAt))
            && (PublicationDue(a, k, job, clock) && Over(a, clock) ==>
                  a' == a.(state := Expired, version := a.version + 1, expiredReason := "MISSED_PUBLISH_WINDOW"))
            && (ends ==> a' == a.(state := Expired, version := a.version + 1, expiredReason := "VISIBLE_WINDOW_ENDED"))
            && (!ends && !PublicationDue(a, k, job, clock) ==> a' == a)
            && b'.jobs[k] == job.(status := if ends || PublicationDue(a, k, job, clock) then Done else Obsolete)
  {
  }

  // -------------------------------------------------------------- contents

  ghost predicate ContentsOk(b: Board) { forall id :: id in b.items ==> b.items[id].content.wellFormed }

  lemma NextContents(b: Board, s: Step)
    requires ContentsOk(b)
    ensures ContentsOk(Next(b, s))
  {
    if s.CommandStep? && Execute(b, s.command, s.newId, s.start, s.clock).Ok? {
      if s.command.id.Some? {
        CommandDoes(b, s.command, s.newId, s.start, s.clock);
        SentWellFormed(b, s.command, s.newId, s.start, s.clock);
      } else {
        SaveCreates(b, s.command, s.newId, s.start, s.clock);
        SentWellFormed(b, s.command, s.newId, s.start, s.clock);
      }
    }
  }

  lemma SentWellFormed(b: Board, c: Command, newId: Id, start: int, clock: int)
    requires Execute(b, c, newId, start, clock).Ok?
    ensures c.content.Some? ==> c.content.value.wellFormed
  {
  }

  /** In every run every stored announcement has content that passed the checks. */
  lemma {:induction false} ContentsChecked(b: Board, steps: seq<Step>)
    requires ContentsOk(b)
    ensures ContentsOk(Run(b, steps))
    decreases |steps|
  {
    if steps != [] {
      NextContents(b, steps[0]);
      ContentsChecked(Next(b, steps[0]), steps[1..]);
    }
  }
}
