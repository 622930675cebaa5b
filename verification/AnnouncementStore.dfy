/** The announcement store as its operations change it: command execution and the job worker. */
module AnnouncementStore {
  import opened Wrappers
  import opened Announcements
  import opened AnnouncementRuns

  /** Rejects a repeated placement, an order out of range, or a public surface for private content. */
  method CheckPlacements(slots: seq<Slot>, isPublic: bool) returns (ok: bool)
    ensures ok == ValidPlacements(slots, isPublic)
  {
    var seen: set<Placement> := {};
    for i := 0 to |slots|
      invariant seen == SlotNames(slots[..i])
      invariant ValidPlacements(slots[..i], isPublic)
    {
      var v := slots[i];
      assert slots[..i + 1][i] == v;
      if v.placement in seen || v.order < 0 || v.order > 1_000_000 {
        if v.placement in seen {
          var j :| 0 <= j < i && slots[..i][j].placement == v.placement;
          assert slots[j].placement == slots[i].placement;
        }
        return false;
      }
      if !isPublic && (v.placement == EntryPopup || v.placement == PublicHomeBanner) {
        return false;
      }
      SlotNamesSnoc(slots, i);
      seen := seen + {v.placement};
    }
    assert slots[..|slots|] == slots;
    ok := true;
  }

  lemma SlotNamesSnoc(slots: seq<Slot>, i: nat)
    requires i < |slots|
    ensures SlotNames(slots[..i + 1]) == SlotNames(slots[..i]) + {slots[i].placement}
  {
    assert slots[..i + 1] == slots[..i] + [slots[i]];
    forall p | p in SlotNames(slots[..i]) ensures p in SlotNames(slots[..i + 1]) {
      var j :| 0 <= j < i && slots[..i][j].placement == p;
      assert slots[..i + 1][j].placement == p;
    }
    assert slots[..i + 1][i].placement == slots[i].placement;
  }

  const PAIRS: seq<Placement> := [EntryPopup, PublicHomeBanner]

  method CheckGuard(items: map<Id, Announcement>, id: Id, slots: seq<Slot>, from: int, until: Option<int>)
    returns (ok: bool)
    ensures ok == Guarded(items, id, SlotNames(slots), from, until)
  {
    for i := 0 to 2
      invariant i > 0 && EntryPopup in SlotNames(slots) ==> !Taken(items, id, EntryPopup, from, until)
      invariant i > 1 && PublicHomeBanner in SlotNames(slots) ==> !Taken(items, id, PublicHomeBanner, from, until)
    {
      var p := PAIRS[i];
      if exists k :: 0 <= k < |slots| && slots[k].placement == p {
        assert p in SlotNames(slots);
        if exists k :: k in items && k != id && Occupies(items[k], p, from, until) {
          return false;
        }
      } else {
        assert p !in SlotNames(slots);
      }
    }
    ok := true;
  }

  class Store {
    var items: map<Id, Announcement>
    var jobs: map<JobKey, Job>

    ghost function View(): Board
      reads this
    {
      Board(items, jobs)
    }

    constructor ()
      ensures View() == EMPTY
    {
      items, jobs := map[], map[];
    }

    method ValidateCommand(c: Command, clock: int) returns (r: Result<Announcement, Error>)
      ensures r == Validate(View(), c, clock)
    {
      var a := BLANK;
      if c.id.None? {
        if c.action != Save {
          return Err(Invalid);
        }
      } else {
        if c.id.value !in items {
          return Err(NotFound);
        }
        a := items[c.id.value];
      }
      var fault := ContentFault(a, c);
      if fault.Some? {
        return Err(fault.value);
      }
      if StrayArguments(c) {
        return Err(Invalid);
      }
      var refusal := CheckAction(a, c, clock);
      if refusal.Some? {
        return Err(refusal.value);
      }
      r := Ok(a);
    }

    method CheckAction(a: Announcement, c: Command, clock: int) returns (r: Option<Error>)
      ensures r == ActionFault(View(), a, c, clock)
    {
      match c.action
      case Save => r := None;
      case UpdateContentOnly => r := None;
      case Withdraw => r := if a.state == Draft || a.withdrawnAt.Some? then Some(Invalid) else None;
      case Archive => r := if a.state == Draft || a.state == Archived then Some(Invalid) else None;
      case ReNotify =>
        r := if a.state != Published || a.withdrawnAt.Some? || !Active(a, clock) then Some(Invalid) else None;
      case UpdatePlacements =>
        if a.state != Published || a.withdrawnAt.Some? || !Active(a, clock) {
          return Some(Invalid);
        }
        r := CheckSlots(a, c, a.window.value.from, a.window.value.until);
      case Publish => r := CheckWindow(a, c, clock);
      case Schedule => r := CheckWindow(a, c, clock);
    }

    method CheckWindow(a: Announcement, c: Command, clock: int) returns (r: Option<Error>)
      requires TakesWindow(c.action)
      ensures r == ActionFault(View(), a, c, clock)
    {
      if a.state != Draft && a.state != Scheduled {
        return Some(Conflict);
      }
      if !ValidWindow(c, clock) {
        return Some(Invalid);
      }
      r := CheckSlots(a, c, c.from.value, c.until);
    }

    method CheckSlots(a: Announcement, c: Command, from: int, until: Option<int>) returns (r: Option<Error>)
      ensures r == if !ValidPlacements(c.placements, a.content.isPublic) then Some(Invalid)
                   else if c.id.Some? && !Guarded(items, c.id.value, SlotNames(c.placements), from, until)
                     then Some(WindowTaken)
                   else None
    {
      var valid := CheckPlacements(c.placements, a.content.isPublic);
      if !valid {
        return Some(Invalid);
      }
      if c.id.Some? {
        var free := CheckGuard(items, c.id.value, c.placements, from, until);
        if !free {
          return Some(WindowTaken);
        }
      }
      r := None;
    }

    /** Runs one command; a refused one changes nothing. */
    method SaveAnnouncement(c: Command, newId: Id, start: int, clock: int) returns (r: Result<Id, Error>)
      modifies this
      ensures View() == Next(old(View()), CommandStep(c, newId, start, clock))
      ensures r == match Execute(old(View()), c, newId, start, clock) case Ok(done) => Ok(done.1) case Err(e) => Err(e)
    {
      var checked := ValidateCommand(c, clock);
      if checked.Err? {
        return Err(checked.error);
      }
      ValidatedWindow(View(), c, clock);
      var a := checked.value;
      var id := if c.id.Some? then c.id.value else newId;
      if c.id.None? {
        if newId in items {
          return Err(Conflict);
        }
        a := Initial(c.content.Some? && c.content.value.kind == Acknowledgements);
      }
      if c.content.Some? {
        a := WithContent(a, c.id.None?, c.content.value);
      }
      a := Transition(a, c, start);
      if a.canonical && exists k :: k in items && k != id && items[k].canonical {
        return Err(Conflict);
      }
      items := items[id := a];
      if a.state == Scheduled || a.state == Published {
        EnsureAnnouncementJobs(id, a);
      }
      r := Ok(id);
    }

    method EnsureAnnouncementJobs(id: Id, a: Announcement)
      requires a.state in {Scheduled, Published}
      modifies this`jobs
      ensures jobs == EnsureJobs(old(jobs), id, a)
      ensures a.window.Some? && a.state == Scheduled ==>
                PendingAt(jobs, PublishKey(id, a.contentVersion), a.window.value.publishAt)
      ensures a.window.Some? && a.window.value.until.Some? ==>
                PendingAt(jobs, ExpireKey(id, a.revision), a.window.value.until.value)
      ensures forall k :: k in old(jobs) && k.id != id ==> k in jobs && jobs[k] == old(jobs)[k]
    {
      if a.state == Scheduled && a.window.Some? {
        jobs := jobs[PublishKey(id, a.contentVersion) := Job(a.contentVersion, a.revision, a.window.value.publishAt,
                                                             Pending)];
      }
      if a.window.Some? && a.window.value.until.Some? {
        jobs := jobs[ExpireKey(id, a.revision) := Job(a.contentVersion, a.revision, a.window.value.until.value,
                                                      Pending)];
      }
    }

    /** The earliest due job the worker may take. */
    method PickJob(start: int, maintenance: bool) returns (k: Option<JobKey>)
      ensures k.Some? ==> FirstDue(View(), k.value, start, maintenance)
      ensures k.None? ==> forall j :: !Eligible(View(), j, start, maintenance)
    {
      k := None;
      var rest := jobs.Keys;
      while rest != {}
        invariant rest <= jobs.Keys
        invariant k.Some? ==> Eligible(View(), k.value, start, maintenance)
        invariant forall j :: Eligible(View(), j, start, maintenance) && j !in rest ==>
                  k.Some? && jobs[k.value].due <= jobs[j].due
        decreases rest
      {
        var j :| j in rest;
        if jobs[j].status == Pending && jobs[j].due <= start && (j.PublishKey? ==> !maintenance) {
          assert Eligible(View(), j, start, maintenance);
          if k.None? || jobs[j].due < jobs[k.value].due {
            k := Some(j);
          }
        }
        rest := rest - {j};
      }
      assert forall j :: Eligible(View(), j, start, maintenance) ==> j in jobs.Keys;
    }

    /** Takes and finishes one job, if any is due and its rows are not locked by another worker. */
    method RunJob(start: int, clock: int, maintenance: bool, locked: bool) returns (did: bool, ghost key: JobKey)
      requires start <= clock
      modifies this
      ensures did ==>
                && FirstDue(old(View()), key, start, maintenance)
                && View() == Next(old(View()), JobStep(key, start, clock, maintenance))
      ensures !did ==> View() == old(View()) && (locked || forall j :: !Eligible(View(), j, start, maintenance))
      ensures locked ==> !did
    {
      var picked := PickJob(start, maintenance);
      if picked.None? || locked {
        return false, PublishKey(0, 0);
      }
      var k := picked.value;
      key := k;
      did := true;
      if k.id in items {
        var a, job := items[k.id], jobs[k];
        var status := Obsolete;
        if k.PublishKey? && a.state == Scheduled && a.withdrawnAt.None? && job.contentVersion == a.contentVersion
           && a.window.Some? && a.window.value.publishAt <= clock {
          status := Done;
          if a.window.value.until.Some? && a.window.value.until.value <= clock {
            a := a.(state := Expired, version := a.version + 1, expiredReason := "MISSED_PUBLISH_WINDOW");
          } else {
            a := a.(state := Published, version := a.version + 1,
                    firstPublishedAt := FirstPublished(a, Published, start));
          }
        } else if k.ExpireKey? && a.state == Published && job.revision == a.revision && a.window.Some?
                  && a.window.value.until.Some? && a.window.value.until.value <= clock {
          status := Done;
          a := a.(state := Expired, version := a.version + 1, expiredReason := "VISIBLE_WINDOW_ENDED");
        }
        items := items[k.id := a];
        jobs := jobs[k := job.(status := status)];
      }
    }

    /** Works through due jobs, at most fifty in a call. Each takes its own readings of the time. */
    method RunJobs(starts: seq<int>, clocks: seq<int>, locked: seq<bool>, maintenance: bool, time: int)
      returns (completed: nat, ghost steps: seq<Step>)
      requires |starts| == |clocks| == |locked| == 50 && (forall i :: 0 <= i < 50 ==> starts[i] <= clocks[i])
      requires time <= clocks[0] && forall i, j :: 0 <= i < j < 50 ==> clocks[i] <= clocks[j]
      modifies this
      ensures completed <= 50 && |steps| == completed && Runs(old(View()), steps, time)
      ensures View() == Run(old(View()), steps)
      ensures forall i :: 0 <= i < completed ==> steps[i].JobStep?
      ensures completed < 50 ==> locked[completed] || forall k :: !Eligible(View(), k, starts[completed], maintenance)
    {
      completed, steps := 0, [];
      while completed < 50
        invariant completed <= 50 && |steps| == completed && Runs(old(View()), steps, time)
        invariant View() == Run(old(View()), steps)
        invariant forall i :: 0 <= i < completed ==> steps[i].JobStep?
        invariant completed > 0 ==> Clock(steps, time) == clocks[completed - 1]
      {
        ghost var before := View();
        var did;
        ghost var key;
        did, key := RunJob(starts[completed], clocks[completed], maintenance, locked[completed]);
        if !did {
          return;
        }
        ghost var step := JobStep(key, starts[completed], clocks[completed], maintenance);
        assert Enabled(before, step, Clock(steps, time));
        RunSnoc(old(View()), steps, step, time);
        steps := steps + [step];
        completed := completed + 1;
      }
    }
  }

  lemma {:induction false} RunSnoc(b: Board, steps: seq<Step>, s: Step, time: int)
    requires Runs(b, steps, time) && Enabled(Run(b, steps), s, Clock(steps, time))
    ensures Runs(b, steps + [s], time) && Run(b, steps + [s]) == Next(Run(b, steps), s)
    decreases |steps|
  {
    if steps == [] {
      assert steps + [s] == [s] && [s][1..] == [];
    } else {
      var rest := steps[1..];
      assert rest != [] ==> rest[|rest| - 1] == steps[|steps| - 1];
      RunSnoc(Next(b, steps[0]), rest, s, steps[0].clock);
      assert (steps + [s])[1..] == rest + [s];
    }
  }
}
