/** What the collector writes and when it can be opened again.  With heads that
    do not regress and a clock that does not run back, everything it ever writes
    replays, whatever its writes do; a directory then opens if and only if its
    manifest fits and no segment but that manifest's own is left over. */
module DurableReopen {
  import opened Basics
  import opened Transitions
  import opened DurableDocument
  import opened DurableSoundness
  import opened DurableCapture
  import opened DurableRollover
  import opened DurableArchive
  import opened DurableHandoff
  import opened DurableRuns

  /** A closed segment may only be the very document it was closed from. */
  ghost predicate Closed(cfg: Config, disk: Disk, d: Document) {
    || |disk.segments| == d.generation
    || (&& |disk.segments| == d.generation + 1 && d.generation in disk.segments
        && disk.segments[d.generation] == d && Fits(cfg, d))
  }

  ghost predicate Readable(cfg: Config, disk: Disk, d: Document) {
    (disk.manifest.Some? ==> Fits(cfg, d)) && IdentityOk(cfg, d) && Numbered(disk.segments)
  }

  ghost predicate Openable(cfg: Config, disk: Disk) {
    var d := CurrentDocument(cfg, disk);
    && Readable(cfg, disk, d)
    && if d.version == 1 then
         disk.segments == map[] && Fits(cfg, Upgraded(d)) && ReplayOk(cfg, disk.segments, Upgraded(d))
       else ReplayOk(cfg, disk.segments, d) && Closed(cfg, disk, d)
  }

  /** Closing a segment keeps the archive replayable. */
  lemma RolledReplays(cfg: Config, segments: map<nat, Document>, d: Document)
    requires ReplayOk(cfg, segments, d) && Fits(cfg, d)
    requires d.generation in segments && segments[d.generation] == d
    ensures ReplayOk(cfg, segments, Rolled(d))
  {
    var run := SegmentRun(segments, d.generation);
    ReplaysSnoc(cfg.hash, cfg.id, run, d);
    RollAccepted(cfg.hash, cfg.id, run, d);
    ReplaysSnoc(cfg.hash, cfg.id, run + [d], Rolled(d));
    assert SegmentRun(segments, d.generation + 1) == run + [d];
  }

  lemma ReplayGeneration(cfg: Config, segments: map<nat, Document>, d: Document)
    requires ReplayOk(cfg, segments, d) && segments == map[]
    ensures d.generation == 0 && d.version != 1
  {
    var view := View(segments, d);
    assert AcceptedAt(cfg.hash, cfg.id, view, |view| - 1);
  }

  /** openDurableArchive succeeds exactly on these directories. */
  lemma OpensExactly(cfg: Config, disk: Disk)
    ensures Opening(cfg, disk, Written, Written).doc.Some? <==> Openable(cfg, disk)
  {
    hide ReplayOk, Fits, Upgraded, IdentityOk;
    var d := CurrentDocument(cfg, disk);
    if Readable(cfg, disk, d) {
      if d.version == 1 {
        if disk.segments == map[] && ReplayOk(cfg, disk.segments, Upgraded(d)) {
          ReplayGeneration(cfg, disk.segments, Upgraded(d));
        }
      } else if ReplayOk(cfg, disk.segments, d) && Closed(cfg, disk, d) && |disk.segments| == d.generation + 1 {
        RolledReplays(cfg, disk.segments, d);
      }
    }
  }

  // ---------------------------------------------------------------------------
  // One capture

  lemma AheadOfSegment(cfg: Config, segments: map<nat, Document>, m: Document, journal: string, committed: U64,
                       now: Time)
    requires ReplayOk(cfg, segments, m) && NotRegressed(m, journal, committed, now)
    ensures NotRegressed(Previous(SegmentRun(segments, m.generation)), journal, committed, now)
  {
    var view, run := View(segments, m), SegmentRun(segments, m.generation);
    assert AcceptedAt(cfg.hash, cfg.id, view, |run|);
    assert view[..|run|] == run;
    PreviousOk(cfg.hash, cfg.id, view, |run|);
    AcceptedAligned(cfg.hash, cfg.id, run, m);
  }

  /** Exactly when the page keeps the archive replayable. */
  lemma CaptureReplays(cfg: Config, segments: map<nat, Document>, m: Document,
                       node: string, page: Page, cursor: Cursor, now: Time)
    requires ReplayOk(cfg, segments, m) && Prepare(m, node, page, cursor, now).Ready?
    ensures ReplayOk(cfg, segments, Prepare(m, node, page, cursor, now).doc)
       <==> NotRegressed(Previous(SegmentRun(segments, m.generation)), cursor.journalId, page.committed, now)
  {
    hide Prepare, AcceptsNext, NotRegressed, Replays;
    var run, d := SegmentRun(segments, m.generation), Prepare(m, node, page, cursor, now).doc;
    PreparedGeneration(m, node, page, cursor, now);
    ReplaysSnoc(cfg.hash, cfg.id, run, m);
    CaptureAccepted(cfg.hash, cfg.id, run, m, node, page, cursor, now);
    ReplaysSnoc(cfg.hash, cfg.id, run, d);
  }

  lemma PreparedHeader(cfg: Config, m: Document, node: string, page: Page, cursor: Cursor, now: Time)
    requires Prepare(m, node, page, cursor, now).Ready? && IdentityOk(cfg, m)
    ensures IdentityOk(cfg, Prepare(m, node, page, cursor, now).doc)
    ensures Prepare(m, node, page, cursor, now).doc.version == m.version
  {}

  // ---------------------------------------------------------------------------
  // Everything written replays, for every outcome of every write

  /** The member's head and the clock are not behind what memory holds. */
  ghost predicate Sane(s: System, a: Action) {
    a.Capture? && s.proc.Some? ==> NotRegressed(s.proc.value, a.cursor.journalId, a.page.committed, a.now)
  }

  ghost predicate SaneRun(cfg: Config, s: System, actions: seq<Action>) {
    forall i :: 0 <= i < |actions| ==> Sane(After(cfg, s, actions[..i]), actions[i])
  }

  /** A document the verifier accepts behind its segments; with events in it, it
      is small enough to become a segment. */
  ghost predicate DocOk(cfg: Config, segments: map<nat, Document>, d: Document) {
    ReplayOk(cfg, segments, d) && IdentityOk(cfg, d) && (HasEvents(d) ==> Fits(cfg, d))
  }

  /** Only documents with events are closed. */
  ghost predicate SegmentsFull(segments: map<nat, Document>) {
    forall g :: g in segments ==> HasEvents(segments[g])
  }

  ghost predicate DiskOk(cfg: Config, disk: Disk) {
    var d := CurrentDocument(cfg, disk);
    SegmentsFull(disk.segments) && (d.version != 1 ==> DocOk(cfg, disk.segments, d))
  }

  ghost predicate Replayable(cfg: Config, s: System) {
    && Sound(cfg, s) && DiskOk(cfg, s.disk)
    && (s.proc.Some? ==> DocOk(cfg, s.disk.segments, s.proc.value))
  }

  lemma SegmentKeeps(cfg: Config, segments: map<nat, Document>, g: nat, x: Document, d: Document)
    requires DocOk(cfg, segments, d) && d.generation <= g && g !in segments
    ensures DocOk(cfg, segments[g := x], d)
  {
    assert SegmentRun(segments[g := x], d.generation) == SegmentRun(segments, d.generation);
  }

  lemma RolledDocOk(cfg: Config, segments: map<nat, Document>, m: Document)
    requires DocOk(cfg, segments, m) && HasEvents(m) && m.generation in segments && segments[m.generation] == m
    ensures DocOk(cfg, segments, Rolled(m))
  {
    RolledReplays(cfg, segments, m);
    assert !HasEvents(Rolled(m));
  }

  /** Closing the segment of `m`. */
  lemma CloseKeeps(cfg: Config, disk: Disk, m: Document)
    requires Sound(cfg, Up(disk, m)) && DiskOk(cfg, disk) && DocOk(cfg, disk.segments, m) && HasEvents(m)
    requires m.generation !in disk.segments
    ensures var disk1 := disk.(segments := disk.segments[m.generation := m]);
            DiskOk(cfg, disk1) && DocOk(cfg, disk1.segments, m)
  {
    hide DocOk, HasEvents, Rolled, UniqueJournals;
    var d := CurrentDocument(cfg, disk);
    assert d.generation <= m.generation;
    SegmentKeeps(cfg, disk.segments, m.generation, m, m);
    if d.version != 1 {
      SegmentKeeps(cfg, disk.segments, m.generation, m, d);
    }
  }

  lemma FinishKeeps(cfg: Config, disk: Disk, m: Document, wMan: Outcome)
    requires DiskOk(cfg, disk) && DocOk(cfg, disk.segments, m) && HasEvents(m)
    requires m.generation in disk.segments && disk.segments[m.generation] == m
    ensures var r := FinishRotation(cfg, disk, m, wMan);
            && DiskOk(cfg, r.disk) && DocOk(cfg, r.disk.segments, r.doc) && r.disk.segments == disk.segments
            && (r.ok ==> r.doc == Rolled(m))
  {
    hide DocOk, HasEvents, Rolled, Fits;
    RolledDocOk(cfg, disk.segments, m);
  }

  lemma RotationKeeps(cfg: Config, disk: Disk, m: Document, wSeg: Outcome, wMan: Outcome)
    requires Sound(cfg, Up(disk, m)) && DiskOk(cfg, disk) && DocOk(cfg, disk.segments, m)
    ensures var r := Rotation(cfg, disk, m, wSeg, wMan);
            && DiskOk(cfg, r.disk) && DocOk(cfg, r.disk.segments, r.doc)
            && (r.ok ==> if HasEvents(m) then RolledBehind(r, m) else r.disk == disk && r.doc == m)
  {
    hide DiskOk, DocOk, HasEvents, Rolled, Fits, FinishRotation, Sound;
    if HasEvents(m) {
      if m.generation !in disk.segments {
        CloseKeeps(cfg, disk, m);
        FinishKeeps(cfg, disk.(segments := disk.segments[m.generation := m]), m, wMan);
      } else if disk.segments[m.generation] == m {
        FinishKeeps(cfg, disk, m, wMan);
      }
    }
  }

  /** The rollover of `m` succeeded. */
  ghost predicate RolledBehind(r: Ended, m: Document) {
    r.doc == Rolled(m) && m.generation in r.disk.segments && r.disk.segments[m.generation] == m
  }

  lemma RolledPrevious(cfg: Config, r: Ended, m: Document)
    requires RolledBehind(r, m) && DocOk(cfg, r.disk.segments, r.doc)
    ensures Previous(SegmentRun(r.disk.segments, r.doc.generation)) == m
  {}

  lemma StoreKeeps(cfg: Config, disk: Disk, m: Document, node: string, page: Page, cursor: Cursor, now: Time,
                   w: Outcome)
    requires DiskOk(cfg, disk) && DocOk(cfg, disk.segments, m) && Prepare(m, node, page, cursor, now).Ready?
    requires NotRegressed(Previous(SegmentRun(disk.segments, m.generation)), cursor.journalId, page.committed, now)
    ensures var r := StorePage(cfg, disk, m, Prepare(m, node, page, cursor, now).doc, w);
            DiskOk(cfg, r.disk) && DocOk(cfg, r.disk.segments, r.doc)
  {
    hide Prepare, ReplayOk, NotRegressed, HasEvents, SegmentsFull, IdentityOk;
    CaptureReplays(cfg, disk.segments, m, node, page, cursor, now);
    PreparedHeader(cfg, m, node, page, cursor, now);
  }

  lemma CaptureKeeps(cfg: Config, disk: Disk, m: Document, a: Action)
    requires a.Capture? && Sound(cfg, Up(disk, m)) && DiskOk(cfg, disk) && DocOk(cfg, disk.segments, m)
    requires NotRegressed(m, a.cursor.journalId, a.page.committed, a.now)
    ensures var r := Capturing(cfg, disk, m, a.node, a.page, a.cursor, a.now, a.w);
            DiskOk(cfg, r.disk) && DocOk(cfg, r.disk.segments, r.doc)
  {
    AheadOfSegment(cfg, disk.segments, m, a.cursor.journalId, a.page.committed, a.now);
    hide Prepare, Rotation, StorePage, NotRegressed, HasEvents, DiskOk, DocOk, Sound;
    var first := Prepare(m, a.node, a.page, a.cursor, a.now);
    if first.Ready? {
      if !NeedsRotation(cfg, first.doc, a.page) {
        StoreKeeps(cfg, disk, m, a.node, a.page, a.cursor, a.now, a.w.page);
      } else {
        RotationKeeps(cfg, disk, m, a.w.segment, a.w.rolled);
        var r := Rotation(cfg, disk, m, a.w.segment, a.w.rolled);
        if r.ok && r.alive && Prepare(r.doc, a.node, a.page, a.cursor, a.now).Ready? {
          if HasEvents(m) {
            RolledPrevious(cfg, r, m);
          }
          StoreKeeps(cfg, r.disk, r.doc, a.node, a.page, a.cursor, a.now, a.w.page);
        }
      }
    }
  }

  /** A new directory can be opened. */
  lemma FreshOpenable(cfg: Config)
    ensures Openable(cfg, Disk(None, map[]))
  {}

  lemma FreshDocOk(cfg: Config)
    ensures DocOk(cfg, map[], FreshDocument(cfg.id))
  {
    FreshOpenable(cfg);
  }

  lemma RecoverKeeps(cfg: Config, disk: Disk, rec: Outcome)
    requires Numbered(disk.segments) && DiskOk(cfg, disk) && CurrentDocument(cfg, disk).version != 1
    ensures var o := Recovering(cfg, disk, CurrentDocument(cfg, disk), rec);
            DiskOk(cfg, o.disk) && (o.doc.Some? ==> DocOk(cfg, o.disk.segments, o.doc.value))
  {
    hide ReplayOk, HasEvents, Fits, Rolled;
    var d := CurrentDocument(cfg, disk);
    if |disk.segments| == d.generation + 1 && disk.segments[d.generation] == d {
      assert HasEvents(d);
      RolledDocOk(cfg, disk.segments, d);
    }
  }

  lemma UpgradedDocOk(cfg: Config, disk: Disk)
    requires Openable(cfg, disk) && CurrentDocument(cfg, disk).version == 1
    ensures var u := Upgraded(CurrentDocument(cfg, disk));
            DocOk(cfg, disk.segments, u) && u.version == 2 && u.generation == 0
  {
    hide ReplayOk, HasEvents;
    ReplayGeneration(cfg, disk.segments, Upgraded(CurrentDocument(cfg, disk)));
  }

  lemma OpenKeeps(cfg: Config, disk: Disk, up: Outcome, rec: Outcome)
    requires DiskOk(cfg, disk)
    ensures var o := Opening(cfg, disk, up, rec);
            DiskOk(cfg, o.disk) && (o.doc.Some? ==> DocOk(cfg, o.disk.segments, o.doc.value))
  {
    hide ReplayOk, HasEvents, Fits, Upgraded, DocOk, Recovering;
    var d := CurrentDocument(cfg, disk);
    if Readable(cfg, disk, d) {
      if d.version != 1 {
        RecoverKeeps(cfg, disk, rec);
      } else if Openable(cfg, disk) {
        UpgradedDocOk(cfg, disk);
        if up == Written {
          RecoverKeeps(cfg, disk.(manifest := Some(Upgraded(d))), rec);
        }
      }
    }
  }

  lemma CommitKeeps(cfg: Config, o: Opened, a: Action)
    requires a.HandOver? && o.doc.Some? && DiskOk(cfg, o.disk) && DocOk(cfg, o.disk.segments, o.doc.value)
    ensures DiskOk(cfg, Committed(cfg, o, a))
  {
    hide PreflightOk, OldHeadMatches, BaselineMatches, ReplayOk, HasEvents;
  }

  lemma StepKeeps(cfg: Config, s: System, a: Action)
    requires Replayable(cfg, s) && Sane(s, a)
    ensures Replayable(cfg, Next(cfg, s, a))
  {
    StepRefines(cfg, s, a);
    hide Sound, Abs, DiskOk, DocOk, Opening, Capturing, Committed, PlainNext, NotRegressed;
    match a {
      case Open(up, rec) => OpenKeeps(cfg, s.disk, up, rec);
      case Capture(_, _, _, _, _) =>
        if s.proc.Some? {
          assert s == Up(s.disk, s.proc.value);
          CaptureKeeps(cfg, s.disk, s.proc.value, a);
        }
      case HandOver(up, rec, _, _, _, _, _, _) =>
        OpenKeeps(cfg, s.disk, up, rec);
        var o := Opening(cfg, s.disk, up, rec);
        if o.doc.Some? {
          CommitKeeps(cfg, o, a);
        }
      case Kill =>
    }
  }

  lemma InitialReplayable(cfg: Config, s: System)
    requires Initial(s)
    ensures Replayable(cfg, s)
  {
    InitialSound(cfg, s);
    FreshDocOk(cfg);
  }

  lemma SanePrefix(cfg: Config, s: System, actions: seq<Action>, n: nat)
    requires SaneRun(cfg, s, actions) && n <= |actions|
    ensures SaneRun(cfg, s, actions[..n])
  {
    hide Sane, After;
    forall i | 0 <= i < n ensures Sane(After(cfg, s, actions[..n][..i]), actions[..n][i]) {
      assert actions[..n][..i] == actions[..i];
    }
  }

  /** In every run, whatever each write does, the stored manifest and the served
      document are ones the verifier accepts behind the stored segments. */
  lemma {:induction false} RunReplays(cfg: Config, s: System, actions: seq<Action>)
    requires Initial(s) && SaneRun(cfg, s, actions)
    ensures Replayable(cfg, After(cfg, s, actions))
  {
    if actions == [] {
      InitialReplayable(cfg, s);
    } else {
      var n := |actions| - 1;
      SanePrefix(cfg, s, actions, n);
      hide Replayable, Sane, Next;
      RunReplays(cfg, s, actions[..n]);
      StepKeeps(cfg, After(cfg, s, actions[..n]), actions[n]);
    }
  }

  // ---------------------------------------------------------------------------
  // When a reachable directory opens

  /** No segment is left over, or only the manifest's own. */
  ghost predicate Closable(disk: Disk, d: Document) {
    |disk.segments| > d.generation && d.generation in disk.segments ==> disk.segments[d.generation] == d
  }

  ghost predicate WellEnded(cfg: Config, disk: Disk) {
    var d := CurrentDocument(cfg, disk);
    (disk.manifest.Some? ==> Fits(cfg, d)) && Closable(disk, d)
  }

  lemma ReplayableOpens(cfg: Config, s: System)
    requires Replayable(cfg, s) && CurrentDocument(cfg, s.disk).version != 1
    ensures Openable(cfg, s.disk) <==> WellEnded(cfg, s.disk)
  {
    hide ReplayOk, HasEvents, Fits, IdentityOk, UniqueJournals;
    var d := CurrentDocument(cfg, s.disk);
    assert Numbered(s.disk.segments) && Counted(|s.disk.segments|, d);
    if Closable(s.disk, d) && |s.disk.segments| == d.generation + 1 {
      assert HasEvents(s.disk.segments[d.generation]);
    }
  }

  /** In every run: a directory past version 1 opens if and only if its manifest
      fits and equals any segment of its own generation. */
  lemma ReachableOpens(cfg: Config, s: System, actions: seq<Action>)
    requires Initial(s) && SaneRun(cfg, s, actions)
    requires CurrentDocument(cfg, After(cfg, s, actions).disk).version != 1
    ensures var disk := After(cfg, s, actions).disk;
            Opening(cfg, disk, Written, Written).doc.Some? <==> WellEnded(cfg, disk)
  {
    hide Replayable, Opening, Openable;
    RunReplays(cfg, s, actions);
    ReplayableOpens(cfg, After(cfg, s, actions));
    OpensExactly(cfg, After(cfg, s, actions).disk);
  }

  // ---------------------------------------------------------------------------
  // Which failures are harmless

  /** Dropping at least one event makes up for the counters a rollover rewrites. */
  ghost predicate RollsSmaller(cfg: Config) {
    forall d: Document :: HasEvents(d) ==> cfg.size(Rolled(d)) <= cfg.size(d)
  }

  /** A capture does not go on after a write that took effect unreported or
      after half a rollover; every other outcome of every write is allowed. */
  predicate Gentle(a: Action) {
    a.Capture? ==>
      !a.w.segment.Unreported? && !a.w.rolled.NotWritten? && !a.w.rolled.Unreported? && !a.w.page.Unreported?
  }

  /** Memory is the manifest, and no segment is left over. */
  ghost predicate InStep(cfg: Config, disk: Disk, m: Document) {
    m == CurrentDocument(cfg, disk) && |disk.segments| == m.generation && (disk.manifest.Some? ==> Fits(cfg, m))
  }

  /** The disk opens, and memory, if any, is in step with it. */
  ghost predicate Tidy(cfg: Config, s: System) {
    var d := CurrentDocument(cfg, s.disk);
    && (d.version != 1 ==> WellEnded(cfg, s.disk))
    && (s.proc.Some? ==> InStep(cfg, s.disk, s.proc.value) && s.proc.value.version != 1)
  }

  lemma FreshHasNoEvents(cfg: Config, disk: Disk)
    requires HasEvents(CurrentDocument(cfg, disk))
    ensures disk.manifest.Some?
  {}

  /** What an operation that ended leaves behind. */
  function Left(r: Ended): System {
    System(r.disk, if r.alive then Some(r.doc) else None)
  }

  lemma StoreTidy(cfg: Config, disk: Disk, m: Document, node: string, page: Page, cursor: Cursor, now: Time, w: Outcome)
    requires InStep(cfg, disk, m) && m.version != 1 && Prepare(m, node, page, cursor, now).Ready? && !w.Unreported?
    ensures Tidy(cfg, Left(StorePage(cfg, disk, m, Prepare(m, node, page, cursor, now).doc, w)))
  {
    hide Prepare, Fits;
    PreparedGeneration(m, node, page, cursor, now);
    PreparedVersion(m, node, page, cursor, now);
  }

  lemma RotationTidy(cfg: Config, disk: Disk, m: Document, wSeg: Outcome, wMan: Outcome)
    requires Numbered(disk.segments) && InStep(cfg, disk, m) && m.version != 1 && RollsSmaller(cfg)
    requires !wSeg.Unreported? && !wMan.NotWritten? && !wMan.Unreported?
    ensures var r := Rotation(cfg, disk, m, wSeg, wMan);
            Tidy(cfg, Left(r)) && (r.ok ==> InStep(cfg, r.disk, r.doc) && r.doc.version != 1)
  {
    assert m.generation !in disk.segments;
    if HasEvents(m) {
      FreshHasNoEvents(cfg, disk);
      NumberedGrows(disk.segments, m);
      assert Fits(cfg, Rolled(m));
    }
    hide HasEvents, RollsSmaller;
  }

  lemma CaptureTidy(cfg: Config, s: System, a: Action)
    requires Numbered(s.disk.segments) && Tidy(cfg, s) && RollsSmaller(cfg) && a.Capture? && Gentle(a)
    ensures Tidy(cfg, Next(cfg, s, a))
  {
    hide Prepare, Rotation, StorePage, RollsSmaller, Tidy, InStep;
    if s.proc.Some? {
      var m := s.proc.value;
      TidyInStep(cfg, s);
      var first := Prepare(m, a.node, a.page, a.cursor, a.now);
      assert s == Left(Ended(s.disk, m, false, true));
      if first.Ready? {
        if !NeedsRotation(cfg, first.doc, a.page) {
          StoreTidy(cfg, s.disk, m, a.node, a.page, a.cursor, a.now, a.w.page);
        } else {
          RotationTidy(cfg, s.disk, m, a.w.segment, a.w.rolled);
          var r := Rotation(cfg, s.disk, m, a.w.segment, a.w.rolled);
          if r.ok && r.alive && Prepare(r.doc, a.node, a.page, a.cursor, a.now).Ready? {
            StoreTidy(cfg, r.disk, r.doc, a.node, a.page, a.cursor, a.now, a.w.page);
          } else {
            assert Left(Ended(r.disk, r.doc, false, r.alive)) == Left(r);
          }
        }
      }
    }
  }

  lemma TidyInStep(cfg: Config, s: System)
    requires Tidy(cfg, s) && s.proc.Some?
    ensures InStep(cfg, s.disk, s.proc.value) && s.proc.value.version != 1
  {}

  lemma RecoverTidy(cfg: Config, disk: Disk, rec: Outcome)
    requires Numbered(disk.segments) && SegmentsFull(disk.segments) && RollsSmaller(cfg)
    requires Tidy(cfg, System(disk, None)) && CurrentDocument(cfg, disk).version != 1
    ensures var o := Recovering(cfg, disk, CurrentDocument(cfg, disk), rec); Tidy(cfg, System(o.disk, o.doc))
  {
    hide ReplayOk;
    var d := CurrentDocument(cfg, disk);
    if |disk.segments| == d.generation + 1 && disk.segments[d.generation] == d {
      assert HasEvents(d);
      FreshHasNoEvents(cfg, disk);
      assert Fits(cfg, Rolled(d));
    }
    hide HasEvents, RollsSmaller;
  }

  /** Opening a version 1 directory either upgrades it or leaves it alone. */
  lemma UpgradeTidy(cfg: Config, disk: Disk, up: Outcome, rec: Outcome)
    requires CurrentDocument(cfg, disk).version == 1 && RollsSmaller(cfg)
    ensures var o := Opening(cfg, disk, up, rec);
            && (o.disk == disk ==> o.doc.None?) && Tidy(cfg, System(o.disk, o.doc))
            && (o.disk != disk ==> Openable(cfg, disk) && CurrentDocument(cfg, o.disk).version != 1)
  {
    hide ReplayOk, RollsSmaller, Upgraded, Fits;
    var d := CurrentDocument(cfg, disk);
    if Openable(cfg, disk) {
      UpgradedDocOk(cfg, disk);
    }
  }

  lemma OpenTidy(cfg: Config, disk: Disk, up: Outcome, rec: Outcome)
    requires Numbered(disk.segments) && SegmentsFull(disk.segments) && RollsSmaller(cfg)
             && Tidy(cfg, System(disk, None))
    ensures var o := Opening(cfg, disk, up, rec); Tidy(cfg, System(o.disk, o.doc))
    ensures var o := Opening(cfg, disk, up, rec);
            CurrentDocument(cfg, disk).version != 1 ==> CurrentDocument(cfg, o.disk).version != 1
  {
    if CurrentDocument(cfg, disk).version == 1 {
      UpgradeTidy(cfg, disk, up, rec);
    } else {
      RecoverTidy(cfg, disk, rec);
    }
    hide Tidy, RollsSmaller, ReplayOk;
  }

  lemma CommitTidy(cfg: Config, o: Opened, a: Action)
    requires a.HandOver? && o.doc.Some? && Tidy(cfg, System(o.disk, o.doc))
    ensures Tidy(cfg, System(Committed(cfg, o, a), None)) && CurrentDocument(cfg, Committed(cfg, o, a)).version != 1
  {
    hide PreflightOk, OldHeadMatches, BaselineMatches, ReplayOk, Fits;
  }

  /** Not past version 1 yet, or past it because the start could be opened. */
  ghost predicate Begun(cfg: Config, start: Disk, s: System) {
    if CurrentDocument(cfg, s.disk).version == 1 then s.disk == start && s.proc.None? else Openable(cfg, start)
  }

  lemma StepTidy(cfg: Config, start: Disk, s: System, a: Action)
    requires Numbered(s.disk.segments) && SegmentsFull(s.disk.segments) && RollsSmaller(cfg)
    requires Tidy(cfg, s) && Begun(cfg, start, s) && Gentle(a)
    ensures Tidy(cfg, Next(cfg, s, a)) && Begun(cfg, start, Next(cfg, s, a))
  {
    match a {
      case Open(up, rec) =>
        if s.proc.None? {
          OpenBegun(cfg, start, s, up, rec);
        }
      case Capture(_, _, _, _, _) =>
        CaptureTidy(cfg, s, a);
        if s.proc.Some? {
          CaptureVersion(cfg, s, a);
        }
      case HandOver(up, rec, _, _, _, _, _, _) =>
        if s.proc.None? {
          OpenBegun(cfg, start, s, up, rec);
          var o := Opening(cfg, s.disk, up, rec);
          if o.doc.Some? {
            CommitTidy(cfg, o, a);
          }
        }
      case Kill =>
    }
    hide Openable, Opening, Capturing, Committed, RollsSmaller;
  }

  lemma OpenBegun(cfg: Config, start: Disk, s: System, up: Outcome, rec: Outcome)
    requires Numbered(s.disk.segments) && SegmentsFull(s.disk.segments) && RollsSmaller(cfg)
    requires Tidy(cfg, s) && Begun(cfg, start, s) && s.proc.None?
    ensures var o := Opening(cfg, s.disk, up, rec);
            Tidy(cfg, System(o.disk, o.doc)) && Tidy(cfg, System(o.disk, None))
            && Begun(cfg, start, System(o.disk, o.doc)) && Begun(cfg, start, System(o.disk, None))
  {
    OpenTidy(cfg, s.disk, up, rec);
    if CurrentDocument(cfg, s.disk).version == 1 {
      UpgradeTidy(cfg, s.disk, up, rec);
    }
    hide Openable, Opening, RollsSmaller;
  }

  lemma CaptureVersion(cfg: Config, s: System, a: Action)
    requires a.Capture? && s.proc.Some? && s.proc.value.version != 1 && CurrentDocument(cfg, s.disk).version != 1
    ensures CurrentDocument(cfg, Next(cfg, s, a).disk).version != 1
  {
    hide Prepare, HasEvents, Fits;
    var m := s.proc.value;
    if Prepare(m, a.node, a.page, a.cursor, a.now).Ready? {
      PreparedVersion(m, a.node, a.page, a.cursor, a.now);
    }
    if Prepare(Rolled(m), a.node, a.page, a.cursor, a.now).Ready? {
      PreparedVersion(Rolled(m), a.node, a.page, a.cursor, a.now);
    }
  }

  lemma {:induction false} RunTidy(cfg: Config, s: System, actions: seq<Action>)
    requires Initial(s) && SaneRun(cfg, s, actions) && RollsSmaller(cfg)
    requires forall i :: 0 <= i < |actions| ==> Gentle(actions[i])
    ensures Replayable(cfg, After(cfg, s, actions))
    ensures Tidy(cfg, After(cfg, s, actions)) && Begun(cfg, s.disk, After(cfg, s, actions))
  {
    RunReplays(cfg, s, actions);
    if actions == [] {
      FreshOpenable(cfg);
    } else {
      var n := |actions| - 1;
      SanePrefix(cfg, s, actions, n);
      hide RollsSmaller, Tidy, Begun, Next, SaneRun, Sound, DocOk;
      RunTidy(cfg, s, actions[..n]);
      assert Numbered(After(cfg, s, actions[..n]).disk.segments) by { SoundNumbered(cfg, After(cfg, s, actions[..n])); }
      StepTidy(cfg, s.disk, After(cfg, s, actions[..n]), actions[n]);
    }
  }

  lemma SoundNumbered(cfg: Config, s: System)
    requires Sound(cfg, s)
    ensures Numbered(s.disk.segments)
  {}

  /** Process deaths anywhere, failed writes of pages, segments, opens and
      handoffs: every reachable directory opens exactly if the first one did. */
  lemma AlwaysReopens(cfg: Config, s: System, actions: seq<Action>)
    requires Initial(s) && SaneRun(cfg, s, actions) && RollsSmaller(cfg)
    requires forall i :: 0 <= i < |actions| ==> Gentle(actions[i])
    ensures Opening(cfg, After(cfg, s, actions).disk, Written, Written).doc.Some?
       <==> Opening(cfg, s.disk, Written, Written).doc.Some?
  {
    RunTidy(cfg, s, actions);
    var t := After(cfg, s, actions);
    OpensExactly(cfg, t.disk);
    OpensExactly(cfg, s.disk);
    if CurrentDocument(cfg, t.disk).version != 1 {
      ReplayableOpens(cfg, t);
    }
    hide Openable, Opening, Replayable, RollsSmaller, After, SaneRun;
  }
}
