/** Where reopening stops being certain: heads or clocks that run back, half a
    rollover the process survives, and a page in doubt before half a rollover it
    does not survive. */
module DurableLimits {
  import opened Basics
  import opened Transitions
  import opened DurableDocument
  import opened DurableCapture
  import opened DurableRollover
  import opened DurableArchive
  import opened DurableRuns
  import opened DurableReopen

  // ---------------------------------------------------------------------------
  // A rollover never changes the verdict on the page that caused it

  lemma ExtendedRolled(c: Chain, page: Page, cursor: Cursor, now: Time)
    requires ValidChain(c) && PageFits(c, page, cursor)
    ensures ValidChain(Extended(RolledChain(c), page, cursor, now)) <==> ValidChain(Extended(c, page, cursor, now))
  {
    AcceptsConcat(c.start, c.startAt, c.events, page.events);
    EndsConcat(c.start, c.startAt, c.events, page.events);
    assert RolledChain(c).events + page.events == page.events;
  }

  /** prepareDurableCapture decides the same before and after the rollover, so
      its second refusal in capture never happens. */
  lemma RolloverKeepsVerdict(m: Document, node: string, page: Page, cursor: Cursor, now: Time)
    requires AllValid(m)
    ensures Prepare(Rolled(m), node, page, cursor, now).Ready? <==> Prepare(m, node, page, cursor, now).Ready?
  {
    hide ValidChain;
    RolledPositions(m);
    var cs, rs := ChainsOf(m, node), ChainsOf(Rolled(m), node);
    assert |rs| == |cs| && forall i :: 0 <= i < |cs| ==> rs[i] == RolledChain(cs[i]);
    assert SameIncarnation(rs, page) == SameIncarnation(cs, page);
    assert (exists i :: 0 <= i < |rs| && rs[i].incarnation == page.incarnation)
        == (exists i :: 0 <= i < |cs| && cs[i].incarnation == page.incarnation);
    if SameIncarnation(cs, page) {
      var c := cs[|cs| - 1];
      assert At(m, node, |cs| - 1) && ChainAt(m, node, |cs| - 1) == c;
      if PageFits(c, page, cursor) {
        ExtendedRolled(c, page, cursor, now);
      }
    }
  }

  // ---------------------------------------------------------------------------
  // Regressed heads and clocks

  /** The segment the page will be compared with when it is replayed. */
  ghost function Behind(cfg: Config, disk: Disk, m: Document, node: string, page: Page, cursor: Cursor,
                        now: Time): Document
    requires Backed(disk.segments, m) && Prepare(m, node, page, cursor, now).Ready?
  {
    if NeedsRotation(cfg, Prepare(m, node, page, cursor, now).doc, page) && HasEvents(m) then m
    else Previous(SegmentRun(disk.segments, m.generation))
  }

  /** A process in step with a directory that replays. */
  ghost predicate Serving(cfg: Config, s: System) {
    Replayable(cfg, s) && s.proc.Some? && InStep(cfg, s.disk, s.proc.value)
  }

  /** The manifest `m` with no segment of its own generation. */
  ghost predicate Last(cfg: Config, segments: map<nat, Document>, m: Document) {
    Numbered(segments) && |segments| == m.generation && ReplayOk(cfg, segments, m) && IdentityOk(cfg, m)
    && m.version != 1
  }

  lemma ServingLast(cfg: Config, s: System)
    requires Serving(cfg, s)
    ensures Last(cfg, s.disk.segments, s.proc.value) && Backed(s.disk.segments, s.proc.value)
    ensures s.proc.value.generation !in s.disk.segments && (HasEvents(s.proc.value) ==> Fits(cfg, s.proc.value))
  {
    var view := View(s.disk.segments, s.proc.value);
    assert AcceptedAt(cfg.hash, cfg.id, view, |view| - 1);
  }

  lemma StoredReopens(cfg: Config, disk: Disk, m: Document, node: string, page: Page, cursor: Cursor, now: Time)
    requires Last(cfg, disk.segments, m) && Prepare(m, node, page, cursor, now).Ready?
    requires Fits(cfg, Prepare(m, node, page, cursor, now).doc)
    ensures Openable(cfg, disk.(manifest := Some(Prepare(m, node, page, cursor, now).doc)))
       <==> NotRegressed(Previous(SegmentRun(disk.segments, m.generation)), cursor.journalId, page.committed, now)
  {
    hide Prepare, ReplayOk, NotRegressed;
    CaptureReplays(cfg, disk.segments, m, node, page, cursor, now);
    PreparedHeader(cfg, m, node, page, cursor, now);
    PreparedGeneration(m, node, page, cursor, now);
  }

  /** The directory right after a rollover of `m`. */
  lemma RolledLast(cfg: Config, segments: map<nat, Document>, m: Document)
    requires Last(cfg, segments, m) && Fits(cfg, m)
    ensures Last(cfg, segments[m.generation := m], Rolled(m))
    ensures ReplayOk(cfg, segments[m.generation := m], m)
    ensures Previous(SegmentRun(segments[m.generation := m], m.generation + 1)) == m
  {
    NumberedGrows(segments, m);
    assert SegmentRun(segments[m.generation := m], m.generation) == SegmentRun(segments, m.generation);
    hide Replays;
    RolledReplays(cfg, segments[m.generation := m], m);
  }

  /** Where an acknowledged page ends up. */
  lemma AckedDisk(cfg: Config, s: System, a: Action)
    requires s.proc.Some? && s.proc.value.generation !in s.disk.segments && Acked(cfg, s, a)
    ensures var m, p := s.proc.value, (d: Document) => Prepare(d, a.node, a.page, a.cursor, a.now);
            && p(m).Ready?
            && if NeedsRotation(cfg, p(m).doc, a.page) && HasEvents(m) then
                 && p(Rolled(m)).Ready? && Fits(cfg, p(Rolled(m)).doc)
                 && Next(cfg, s, a).disk == Disk(Some(p(Rolled(m)).doc), s.disk.segments[m.generation := m])
               else Fits(cfg, p(m).doc) && Next(cfg, s, a).disk == s.disk.(manifest := Some(p(m).doc))
  {
    hide Prepare, HasEvents, Fits, Rolled;
  }

  /** After an acknowledged capture the archive opens again if and only if the
      page's head and the clock were not behind the last closed segment. */
  lemma RegressionExactly(cfg: Config, s: System, a: Action)
    requires Serving(cfg, s) && Acked(cfg, s, a)
    ensures Prepare(s.proc.value, a.node, a.page, a.cursor, a.now).Ready? && Backed(s.disk.segments, s.proc.value)
    ensures Openable(cfg, Next(cfg, s, a).disk)
       <==> NotRegressed(Behind(cfg, s.disk, s.proc.value, a.node, a.page, a.cursor, a.now),
                         a.cursor.journalId, a.page.committed, a.now)
  {
    var m, segments := s.proc.value, s.disk.segments;
    ServingLast(cfg, s);
    AckedDisk(cfg, s, a);
    hide Serving, Prepare, NotRegressed, Openable, HasEvents, Last, Backed, Fits, Rolled, Next, Acked;
    if !NeedsRotation(cfg, Prepare(m, a.node, a.page, a.cursor, a.now).doc, a.page) || !HasEvents(m) {
      StoredReopens(cfg, s.disk, m, a.node, a.page, a.cursor, a.now);
    } else {
      RolledLast(cfg, segments, m);
      RolledGeneration(m);
      var disk := Disk(Some(Rolled(m)), segments[m.generation := m]);
      StoredReopens(cfg, disk, Rolled(m), a.node, a.page, a.cursor, a.now);
    }
  }

  // ---------------------------------------------------------------------------
  // A rollover that reports failure and lives on

  /** The page repeats exactly what the node's last chain already records. */
  predicate RepeatsRecord(m: Document, node: string, page: Page, cursor: Cursor, now: Time) {
    var cs := ChainsOf(m, node);
    && m.chainsPresent && SameIncarnation(cs, page) && page.events == []
    && var c := cs[|cs| - 1];
    c.cursor == cursor && c.committed == page.committed && c.headDigest == page.headDigest && c.observedAt == now
  }

  lemma UnchangedExactly(m: Document, node: string, page: Page, cursor: Cursor, now: Time)
    requires Prepare(m, node, page, cursor, now).Ready?
    ensures Prepare(m, node, page, cursor, now).doc == m <==> RepeatsRecord(m, node, page, cursor, now)
  {
    hide ValidChain, Journals;
    CaptureShape(m, node, page, cursor, now);
    var cs, d := ChainsOf(m, node), Prepare(m, node, page, cursor, now).doc;
    if SameIncarnation(cs, page) {
      var c := cs[|cs| - 1];
      assert d.chains[node][|cs| - 1].events == c.events + page.events;
      if RepeatsRecord(m, node, page, cursor, now) {
        assert c.events + [] == c.events;
        assert Extended(c, page, cursor, now) == c;
        assert WithLast(cs, c) == cs && m.chains[node := cs] == m.chains;
      }
    } else if node in m.chains {
      assert |d.chains[node]| == |m.chains[node]| + 1;
    }
  }

  lemma CaptureShape(m: Document, node: string, page: Page, cursor: Cursor, now: Time)
    requires Prepare(m, node, page, cursor, now).Ready?
    ensures var target := TargetChains(m, node, page);
            Prepare(m, node, page, cursor, now).doc ==
            m.(chainsPresent := true,
            chains := m.chains[node := WithLast(target, Extended(target[|target| - 1], page, cursor, now))])
  {}

  /** The segment was written and the manifest was not, or nobody was told. */
  predicate HalfRolled(cfg: Config, m: Document, w: Writes) {
    || w.segment.Unreported?
    || (w.segment.Written? && (w.rolled.NotWritten? || w.rolled.Unreported? || !Fits(cfg, Rolled(m))))
  }

  ghost predicate Rolls(cfg: Config, m: Document, a: Action) {
    && a.Capture? && HasEvents(m)
    && var first := Prepare(m, a.node, a.page, a.cursor, a.now); first.Ready? && NeedsRotation(cfg, first.doc, a.page)
  }

  lemma HalfRolledDisk(cfg: Config, s: System, a: Action)
    requires s.proc.Some? && s.proc.value.generation !in s.disk.segments
    requires Rolls(cfg, s.proc.value, a) && HalfRolled(cfg, s.proc.value, a.w)
    ensures var m, t := s.proc.value, Next(cfg, s, a);
            && t.proc == s.proc && t.disk.segments == s.disk.segments[m.generation := m]
            && (t.disk.manifest == s.disk.manifest || (t.disk.manifest == Some(Rolled(m)) && Fits(cfg, Rolled(m))))
  {
    hide Prepare, HasEvents, Fits, Rolled;
  }

  /** Half a rollover leaves memory as it was beside its own segment. */
  lemma FailedRollover(cfg: Config, s: System, a: Action)
    requires Serving(cfg, s) && Rolls(cfg, s.proc.value, a) && HalfRolled(cfg, s.proc.value, a.w)
    ensures var m, t := s.proc.value, Next(cfg, s, a);
            t.proc == s.proc && t.disk.segments == s.disk.segments[m.generation := m] && Openable(cfg, t.disk)
  {
    var m := s.proc.value;
    ServingLast(cfg, s);
    assert InStep(cfg, s.disk, m) && HasEvents(m);
    FreshHasNoEvents(cfg, s.disk);
    HalfRolledDisk(cfg, s, a);
    hide Prepare, ReplayOk, HasEvents, Next, Serving;
    RolledLast(cfg, s.disk.segments, m);
    NumberedGrows(s.disk.segments, m);
  }

  lemma StoredDisk(cfg: Config, t: System, a: Action)
    requires a.Capture? && Acked(cfg, t, a)
    requires !NeedsRotation(cfg, Prepare(t.proc.value, a.node, a.page, a.cursor, a.now).doc, a.page)
    ensures var first := Prepare(t.proc.value, a.node, a.page, a.cursor, a.now);
            && first.Ready? && Fits(cfg, first.doc)
            && Next(cfg, t, a).disk == t.disk.(manifest := Some(first.doc))
  {
    hide Prepare, Rolled, HasEvents;
  }

  /** From there, storing a page without rolling over leaves the directory
      openable if and only if the page says nothing new. */
  lemma FailedRolloverExactly(cfg: Config, s: System, t: System, a: Action)
    requires Serving(cfg, s) && t.proc == s.proc && HasEvents(s.proc.value)
    requires t.disk.segments == s.disk.segments[s.proc.value.generation := s.proc.value]
    requires a.Capture? && Acked(cfg, t, a)
    requires !NeedsRotation(cfg, Prepare(t.proc.value, a.node, a.page, a.cursor, a.now).doc, a.page)
    ensures Openable(cfg, Next(cfg, t, a).disk) <==> RepeatsRecord(t.proc.value, a.node, a.page, a.cursor, a.now)
  {
    var m := s.proc.value;
    ServingLast(cfg, s);
    StoredDisk(cfg, t, a);
    hide Prepare, ReplayOk, RepeatsRecord, HasEvents, Serving, Next, Acked, NeedsRotation;
    RolledLast(cfg, s.disk.segments, m);
    BesideOwnSegment(cfg, t.disk.segments, m, a.node, a.page, a.cursor, a.now);
  }

  /** A page stored in the manifest while the segment holds the document without it. */
  lemma BesideOwnSegment(cfg: Config, segments: map<nat, Document>, m: Document,
                         node: string, page: Page, cursor: Cursor, now: Time)
    requires Prepare(m, node, page, cursor, now).Ready? && Fits(cfg, Prepare(m, node, page, cursor, now).doc)
    requires Numbered(segments) && |segments| == m.generation + 1 && segments[m.generation] == m
    requires ReplayOk(cfg, segments, m) && IdentityOk(cfg, m) && m.version != 1
    ensures Openable(cfg, Disk(Some(Prepare(m, node, page, cursor, now).doc), segments))
       <==> RepeatsRecord(m, node, page, cursor, now)
  {
    hide Prepare, ReplayOk, RepeatsRecord;
    PreparedGeneration(m, node, page, cursor, now);
    PreparedHeader(cfg, m, node, page, cursor, now);
    UnchangedExactly(m, node, page, cursor, now);
  }

  // ---------------------------------------------------------------------------
  // A page in doubt and a death inside the next rollover

  /** The process dies with the segment written and the manifest not. */
  predicate DiesHalfRolled(cfg: Config, m: Document, w: Writes) {
    w.segment.DiedAfter? || (w.segment.Written? && w.rolled.DiedBefore? && Fits(cfg, Rolled(m)))
  }

  lemma DyingDisk(cfg: Config, disk: Disk, m: Document, b: Action)
    requires Rolls(cfg, m, b) && DiesHalfRolled(cfg, m, b.w) && m.generation !in disk.segments
    ensures Next(cfg, Up(disk, m), b) == System(disk.(segments := disk.segments[m.generation := m]), None)
  {
    hide Prepare, Rolled, HasEvents;
  }

  lemma InDoubtDisk(cfg: Config, disk: Disk, m: Document, a: Action)
    requires a.Capture? && a.w.page.Unreported? && Prepare(m, a.node, a.page, a.cursor, a.now).Ready?
    requires Fits(cfg, Prepare(m, a.node, a.page, a.cursor, a.now).doc)
    requires !NeedsRotation(cfg, Prepare(m, a.node, a.page, a.cursor, a.now).doc, a.page)
    ensures Next(cfg, Up(disk, m), a)
         == Up(disk.(manifest := Some(Prepare(m, a.node, a.page, a.cursor, a.now).doc)), m)
  {
    hide Prepare, Rolled, HasEvents;
  }

  /** A page that was written but reported as failed stays in the manifest while
      memory goes on without it.  When the next rollover dies half way, the
      directory opens if and only if that page said nothing new. */
  lemma PageInDoubtExactly(cfg: Config, s: System, a: Action, b: Action)
    requires Serving(cfg, s) && a.Capture? && a.w.page.Unreported? && Rolls(cfg, s.proc.value, b)
    requires Prepare(s.proc.value, a.node, a.page, a.cursor, a.now).Ready?
    requires Fits(cfg, Prepare(s.proc.value, a.node, a.page, a.cursor, a.now).doc)
    requires !NeedsRotation(cfg, Prepare(s.proc.value, a.node, a.page, a.cursor, a.now).doc, a.page)
    requires DiesHalfRolled(cfg, s.proc.value, b.w)
    ensures Next(cfg, s, a).proc == s.proc && Next(cfg, Next(cfg, s, a), b).proc.None?
    ensures Openable(cfg, Next(cfg, Next(cfg, s, a), b).disk)
       <==> RepeatsRecord(s.proc.value, a.node, a.page, a.cursor, a.now)
  {
    var m := s.proc.value;
    var x := Prepare(m, a.node, a.page, a.cursor, a.now).doc;
    InDoubtDisk(cfg, s.disk, m, a);
    ServingLast(cfg, s);
    hide Prepare, ReplayOk, RepeatsRecord, HasEvents, Openable, Rolled, Next, DiesHalfRolled, NeedsRotation;
    RolledLast(cfg, s.disk.segments, m);
    NumberedGrows(s.disk.segments, m);
    DyingDisk(cfg, s.disk.(manifest := Some(x)), m, b);
    BesideOwnSegment(cfg, s.disk.segments[m.generation := m], m, a.node, a.page, a.cursor, a.now);
  }
}
