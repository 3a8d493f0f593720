/** Whole runs of the collector: opens, captures with and without rollover,
    handoffs and deaths at any write, in any order.  Every run is a run of one
    plain log per journal. */
module DurableRuns {
  import opened Basics
  import opened Transitions
  import opened DurableDocument
  import opened DurableCapture
  import opened DurableRollover
  import opened DurableArchive
  import opened DurableHandoff
  import opened SnapshotComparison

  /** The directory and, while a process holds it, that process's document. */
  datatype System = System(disk: Disk, proc: Option<Document>)

  /** `HandOver` opens the archive itself and ends afterwards. */
  datatype Action =
    | Open(up: Outcome, rec: Outcome)
    | Capture(node: string, page: Page, cursor: Cursor, now: Time, w: Writes)
    | HandOver(up: Outcome, rec: Outcome, frozen: Disk, e: Evidence, member: MemberReport, baseline: Page, at: Time,
               wMan: Outcome)
    | Kill

  ghost function Committed(cfg: Config, o: Opened, a: Action): Disk
    requires a.HandOver? && o.doc.Some?
  {
    if CommitOk(cfg, o.disk, o.doc.value, a.frozen, a.e, a.member, a.baseline, a.at) then
      PutManifest(o.disk, HandedOver(o.doc.value, ProofOf(a.e), a.member, a.baseline, a.at), a.wMan)
    else o.disk
  }

  ghost function Next(cfg: Config, s: System, a: Action): System {
    match a
    case Open(up, rec) =>
      if s.proc.Some? then s
      else var o := Opening(cfg, s.disk, up, rec); System(o.disk, o.doc)
    case Capture(node, page, cursor, now, w) =>
      if s.proc.None? then s
      else
        var r := Capturing(cfg, s.disk, s.proc.value, node, page, cursor, now, w);
        System(r.disk, if r.alive then Some(r.doc) else None)
    case HandOver(up, rec, _, _, _, _, _, _) =>
      if s.proc.Some? then s
      else
        var o := Opening(cfg, s.disk, up, rec);
        System(if o.doc.Some? then Committed(cfg, o, a) else o.disk, None)
    case Kill => System(s.disk, None)
  }

  ghost function After(cfg: Config, s: System, actions: seq<Action>): System {
    if actions == [] then s else Next(cfg, After(cfg, s, actions[..|actions| - 1]), actions[|actions| - 1])
  }

  /** The capture was acknowledged. */
  ghost predicate Acked(cfg: Config, s: System, a: Action) {
    && a.Capture? && s.proc.Some?
    && Capturing(cfg, s.disk, s.proc.value, a.node, a.page, a.cursor, a.now, a.w).ok
  }

  /** An empty directory, or one left by the version without segments. */
  predicate Initial(s: System) {
    && s.proc.None? && s.disk.segments == map[]
    && (s.disk.manifest.Some? ==> s.disk.manifest.value.version == 1 && s.disk.manifest.value.generation == 0)
  }

  // ---------------------------------------------------------------------------
  // The plain log

  type Log = imap<string, seq<Event>>

  ghost function LogOf(segments: map<nat, Document>, d: Document): Log
    requires Backed(segments, d)
  {
    imap j: string | true :: History(View(segments, d), j)
  }

  ghost function Append(log: Log, j: string, es: seq<Event>): Log
    requires j in log
  {
    log[j := log[j] + es]
  }

  /** `served` is what the running process answers from, `stored` what the next
      open would find; with no process running the two are one. */
  datatype Plain = Plain(served: Log, stored: Log)

  ghost predicate Full(log: Log) {
    forall j: string :: j in log
  }

  /** The page was written although its capture reported failure. */
  predicate InDoubt(w: Outcome) {
    w.Unreported? || w.DiedAfter?
  }

  /** How the plain log may move. */
  ghost predicate PlainNext(p: Plain, q: Plain, a: Action, acked: bool)
    requires Full(p.served)
  {
    if acked then
      a.Capture? && q.served == Append(p.served, a.cursor.journalId, a.page.events) && q.stored == q.served
    else if a.Capture? then
      && (|| q.stored == p.stored || q.stored == p.served
          || (InDoubt(a.w.page) && q.stored == Append(p.served, a.cursor.journalId, a.page.events)))
      && (q.served == p.served || q.served == q.stored)
    else q.stored == p.stored && (q.served == p.served || q.served == p.stored)
  }

  // ---------------------------------------------------------------------------
  // What every step keeps

  ghost predicate Counted(n: nat, d: Document) {
    d.generation <= n <= d.generation + 1
  }

  /** Memory and manifest are of one generation, or the manifest is the rollover
      of memory that was written but not reported. */
  ghost predicate Near(disk: Disk, d: Document, m: Document) {
    || d.generation == m.generation
    || (d == Rolled(m) && m.generation in disk.segments && disk.segments[m.generation] == m)
  }

  ghost predicate Sound(cfg: Config, s: System) {
    var d := CurrentDocument(cfg, s.disk);
    && Numbered(s.disk.segments) && Counted(|s.disk.segments|, d)
    && (s.proc.Some? ==>
          && UniqueJournals(s.proc.value) && Counted(|s.disk.segments|, s.proc.value) && Near(s.disk, d, s.proc.value))
  }

  lemma CountedBacked(segments: map<nat, Document>, d: Document)
    requires Numbered(segments) && Counted(|segments|, d)
    ensures Backed(segments, d)
  {}

  ghost function Abs(cfg: Config, s: System): (p: Plain)
    requires Sound(cfg, s)
    ensures Full(p.served) && Full(p.stored)
  {
    CountedBacked(s.disk.segments, CurrentDocument(cfg, s.disk));
    var stored := LogOf(s.disk.segments, CurrentDocument(cfg, s.disk));
    if s.proc.Some? then
      CountedBacked(s.disk.segments, s.proc.value);
      Plain(LogOf(s.disk.segments, s.proc.value), stored)
    else Plain(stored, stored)
  }

  // ---------------------------------------------------------------------------
  // Single effects on the log

  lemma SegmentAdded(segments: map<nat, Document>, g: nat, x: Document, d: Document)
    requires Backed(segments, d) && d.generation <= g && g !in segments
    ensures Backed(segments[g := x], d) && LogOf(segments[g := x], d) == LogOf(segments, d)
  {
    assert SegmentRun(segments[g := x], d.generation) == SegmentRun(segments, d.generation);
  }

  lemma NumberedGrows(segments: map<nat, Document>, x: Document)
    requires Numbered(segments)
    ensures Numbered(segments[|segments| := x]) && |segments[|segments| := x]| == |segments| + 1
  {}

  lemma RolledRun(segments: map<nat, Document>, m: Document)
    requires Backed(segments, m) && m.generation in segments && segments[m.generation] == m
    ensures Backed(segments, Rolled(m))
    ensures View(segments, Rolled(m)) == SegmentRun(segments, m.generation) + [m] + [Rolled(m)]
  {}

  lemma RolledLog(segments: map<nat, Document>, m: Document)
    requires Backed(segments, m) && m.generation in segments && segments[m.generation] == m
    ensures Backed(segments, Rolled(m)) && LogOf(segments, Rolled(m)) == LogOf(segments, m)
  {
    RolledRun(segments, m);
    hide History, Rolled, SegmentRun;
    forall j: string ensures History(View(segments, Rolled(m)), j) == History(View(segments, m), j) {
      RollKeepsHistory(SegmentRun(segments, m.generation), m, j);
    }
  }

  lemma PreparedVersion(d: Document, node: string, page: Page, cursor: Cursor, now: Time)
    requires Prepare(d, node, page, cursor, now).Ready?
    ensures Prepare(d, node, page, cursor, now).doc.version == d.version
  {}

  lemma PreparedGeneration(m: Document, node: string, page: Page, cursor: Cursor, now: Time)
    requires Prepare(m, node, page, cursor, now).Ready?
    ensures Prepare(m, node, page, cursor, now).doc.generation == m.generation
  {}

  lemma CaptureHistory(run: seq<Document>, m: Document, node: string, page: Page, cursor: Cursor, now: Time, j: string)
    requires UniqueJournals(m) && Prepare(m, node, page, cursor, now).Ready?
    ensures History(run + [Prepare(m, node, page, cursor, now).doc], j)
         == History(run + [m], j) + if j == cursor.journalId then page.events else []
  {
    hide Prepare, UniqueJournals, EventsIn;
    CaptureAppends(m, node, page, cursor, now, j);
    HistorySnoc(run, Prepare(m, node, page, cursor, now).doc, j);
    HistorySnoc(run, m, j);
  }

  lemma AppendPointwise(a: Log, b: Log, j: string, es: seq<Event>)
    requires Full(a) && Full(b) && forall k: string :: b[k] == a[k] + if k == j then es else []
    ensures b == Append(a, j, es)
  {
    forall k: string ensures b[k] == Append(a, j, es)[k] {
      assert a[k] + [] == a[k];
    }
  }

  lemma CaptureLog(segments: map<nat, Document>, m: Document, node: string, page: Page, cursor: Cursor, now: Time)
    requires Backed(segments, m) && UniqueJournals(m) && Prepare(m, node, page, cursor, now).Ready?
    ensures var d := Prepare(m, node, page, cursor, now).doc;
            && d.generation == m.generation && Backed(segments, d) && UniqueJournals(d)
            && LogOf(segments, d) == Append(LogOf(segments, m), cursor.journalId, page.events)
  {
    hide Prepare, UniqueJournals, History;
    PreparedGeneration(m, node, page, cursor, now);
    var d := Prepare(m, node, page, cursor, now).doc;
    CaptureUnique(m, node, page, cursor, now);
    forall j: string
      ensures LogOf(segments, d)[j] == LogOf(segments, m)[j] + if j == cursor.journalId then page.events else []
    {
      CaptureHistory(SegmentRun(segments, m.generation), m, node, page, cursor, now, j);
    }
    AppendPointwise(LogOf(segments, m), LogOf(segments, d), cursor.journalId, page.events);
  }

  lemma UpgradedPositions(d: Document)
    ensures forall n, i :: At(Upgraded(d), n, i) <==> At(d, n, i)
    ensures forall n, i :: At(d, n, i) ==> ChainAt(Upgraded(d), n, i) == UpgradedChain(ChainAt(d, n, i))
    ensures Journals(Upgraded(d)) == Journals(d)
  {
    var u := Upgraded(d);
    forall j | j in Journals(d) ensures j in Journals(u) {
      var n, i :| n in d.chains && 0 <= i < |d.chains[n]| && d.chains[n][i].cursor.journalId == j;
      assert u.chains[n][i].cursor.journalId == j;
    }
    forall j | j in Journals(u) ensures j in Journals(d) {
      var n, i :| n in u.chains && 0 <= i < |u.chains[n]| && u.chains[n][i].cursor.journalId == j;
      assert d.chains[n][i].cursor.journalId == j;
    }
  }

  lemma UpgradedLog(segments: map<nat, Document>, d: Document)
    requires Backed(segments, d) && UniqueJournals(Upgraded(d))
    ensures Backed(segments, Upgraded(d)) && LogOf(segments, Upgraded(d)) == LogOf(segments, d)
  {
    var u := Upgraded(d);
    UpgradedPositions(d);
    assert UniqueJournals(d);
    var run := SegmentRun(segments, d.generation);
    forall j: string ensures History(View(segments, u), j) == History(View(segments, d), j) {
      HistorySnoc(run, u, j);
      HistorySnoc(run, d, j);
      if j in Journals(d) {
        var n, i :| n in d.chains && 0 <= i < |d.chains[n]| && d.chains[n][i].cursor.journalId == j;
        assert At(d, n, i) && At(u, n, i);
        EventsAt(d, n, i);
        EventsAt(u, n, i);
      }
    }
  }

  lemma HandedLog(segments: map<nat, Document>, m: Document, proof: Handoff, member: MemberReport, page: Page, at: Time)
    requires Backed(segments, m) && UniqueJournals(m) && UniqueJournals(HandedOver(m, proof, member, page, at))
    ensures var d := HandedOver(m, proof, member, page, at);
            d.generation == m.generation && Backed(segments, d) && LogOf(segments, d) == LogOf(segments, m)
  {
    var d := HandedOver(m, proof, member, page, at);
    var run := SegmentRun(segments, m.generation);
    forall j: string ensures History(View(segments, d), j) == History(View(segments, m), j) {
      HandoffKeepsEvents(m, proof, member, page, at, j);
      HistorySnoc(run, d, j);
      HistorySnoc(run, m, j);
    }
  }

  lemma ReplayUnique(cfg: Config, segments: map<nat, Document>, d: Document)
    requires ReplayOk(cfg, segments, d)
    ensures UniqueJournals(d)
  {
    var view := View(segments, d);
    assert AcceptedAt(cfg.hash, cfg.id, view, |view| - 1);
  }

  // ---------------------------------------------------------------------------
  // Steps

  ghost function Up(disk: Disk, m: Document): System {
    System(disk, Some(m))
  }

  lemma Dropped(cfg: Config, disk: Disk, m: Document)
    requires Sound(cfg, Up(disk, m))
    ensures Sound(cfg, System(disk, None))
    ensures Abs(cfg, System(disk, None)) == Plain(Abs(cfg, Up(disk, m)).stored, Abs(cfg, Up(disk, m)).stored)
  {}

  lemma SegmentStep(cfg: Config, disk: Disk, m: Document)
    requires Sound(cfg, Up(disk, m)) && m.generation !in disk.segments
    ensures var disk1 := disk.(segments := disk.segments[m.generation := m]);
            Sound(cfg, Up(disk1, m)) && Abs(cfg, Up(disk1, m)) == Abs(cfg, Up(disk, m))
  {
    hide UniqueJournals, Rolled, LogOf;
    var d := CurrentDocument(cfg, disk);
    CountedBacked(disk.segments, m);
    CountedBacked(disk.segments, d);
    assert m.generation == |disk.segments|;
    NumberedGrows(disk.segments, m);
    SegmentAdded(disk.segments, m.generation, m, m);
    SegmentAdded(disk.segments, m.generation, m, d);
  }

  lemma RolledSound(cfg: Config, disk: Disk, m: Document)
    requires Sound(cfg, Up(disk, m)) && m.generation in disk.segments && disk.segments[m.generation] == m
    ensures var disk1 := disk.(manifest := Some(Rolled(m)));
            && Sound(cfg, Up(disk1, m)) && Sound(cfg, Up(disk1, Rolled(m)))
            && Abs(cfg, Up(disk1, m)) == Plain(Abs(cfg, Up(disk, m)).served, Abs(cfg, Up(disk, m)).served)
            && Abs(cfg, Up(disk1, Rolled(m))) == Abs(cfg, Up(disk1, m))
  {
    hide UniqueJournals, LogOf;
    RolledUnique(m);
    CountedBacked(disk.segments, m);
    RolledLog(disk.segments, m);
  }

  lemma RotationStep(cfg: Config, disk: Disk, m: Document, wSeg: Outcome, wMan: Outcome)
    requires Sound(cfg, Up(disk, m))
    ensures var r, p := Rotation(cfg, disk, m, wSeg, wMan), Abs(cfg, Up(disk, m));
            && Sound(cfg, Up(r.disk, r.doc)) && (r.ok ==> r.alive)
            && var q := Abs(cfg, Up(r.disk, r.doc));
            q.served == p.served && (q.stored == p.stored || q.stored == p.served)
  {
    hide Sound, Abs, HasEvents, Fits, Rolled;
    if m.generation !in disk.segments {
      SegmentStep(cfg, disk, m);
      RolledSound(cfg, disk.(segments := disk.segments[m.generation := m]), m);
    } else if disk.segments[m.generation] == m {
      RolledSound(cfg, disk, m);
    }
  }

  /** How a capture may leave the log: served grows exactly with success, and only
      then or in doubt is the page stored. */
  ghost predicate PageEnds(p: Plain, q: Plain, j: string, es: seq<Event>, ok: bool, doubt: bool)
    requires Full(p.served)
  {
    var longer := Append(p.served, j, es);
    && q.served == (if ok then longer else p.served) && (ok ==> q.stored == longer)
    && (q.stored == p.stored || q.stored == p.served || (q.stored == longer && (ok || doubt)))
  }

  lemma StoreStep(cfg: Config, disk: Disk, m: Document, node: string, page: Page, cursor: Cursor, now: Time, w: Outcome)
    requires Sound(cfg, Up(disk, m)) && Prepare(m, node, page, cursor, now).Ready?
    ensures var r, p := StorePage(cfg, disk, m, Prepare(m, node, page, cursor, now).doc, w), Abs(cfg, Up(disk, m));
            && Sound(cfg, Up(r.disk, r.doc)) && (r.ok ==> r.alive)
            && PageEnds(p, Abs(cfg, Up(r.disk, r.doc)), cursor.journalId, page.events, r.ok, InDoubt(w))
  {
    hide Prepare, UniqueJournals, LogOf, Fits, Rolled;
    CountedBacked(disk.segments, m);
    CaptureLog(disk.segments, m, node, page, cursor, now);
  }

  /** A capture seen from the process: `served` moves only when acknowledged. */
  lemma CaptureEnds(cfg: Config, disk: Disk, m: Document, node: string, page: Page, cursor: Cursor, now: Time,
                    w: Writes)
    requires Sound(cfg, Up(disk, m))
    ensures var r, p := Capturing(cfg, disk, m, node, page, cursor, now, w), Abs(cfg, Up(disk, m));
            && Sound(cfg, Up(r.disk, r.doc)) && (r.ok ==> r.alive)
            && PageEnds(p, Abs(cfg, Up(r.disk, r.doc)), cursor.journalId, page.events, r.ok, InDoubt(w.page))
  {
    hide Sound, Abs, Prepare, Rotation, StorePage;
    var first := Prepare(m, node, page, cursor, now);
    if first.Ready? {
      if !NeedsRotation(cfg, first.doc, page) {
        StoreStep(cfg, disk, m, node, page, cursor, now, w.page);
      } else {
        RotationStep(cfg, disk, m, w.segment, w.rolled);
        var rot := Rotation(cfg, disk, m, w.segment, w.rolled);
        if rot.ok && Prepare(rot.doc, node, page, cursor, now).Ready? {
          StoreStep(cfg, rot.disk, rot.doc, node, page, cursor, now, w.page);
        }
      }
    }
  }

  lemma CaptureStep(cfg: Config, s: System, a: Action)
    requires Sound(cfg, s) && a.Capture?
    ensures Sound(cfg, Next(cfg, s, a))
    ensures PlainNext(Abs(cfg, s), Abs(cfg, Next(cfg, s, a)), a, Acked(cfg, s, a))
  {
    hide Sound, Abs, Capturing;
    if s.proc.Some? {
      assert s == Up(s.disk, s.proc.value);
      var r := Capturing(cfg, s.disk, s.proc.value, a.node, a.page, a.cursor, a.now, a.w);
      CaptureEnds(cfg, s.disk, s.proc.value, a.node, a.page, a.cursor, a.now, a.w);
      Dropped(cfg, r.disk, r.doc);
    }
  }

  lemma RecoverStep(cfg: Config, disk: Disk, doc: Document, rec: Outcome)
    requires Sound(cfg, System(disk, None)) && doc == CurrentDocument(cfg, disk)
    ensures var o := Recovering(cfg, disk, doc, rec);
            Sound(cfg, System(o.disk, o.doc)) && Abs(cfg, System(o.disk, o.doc)) == Abs(cfg, System(disk, None))
    ensures var o := Recovering(cfg, disk, doc, rec);
            o.doc.Some? ==> o.doc.value == CurrentDocument(cfg, o.disk) && ReplayOk(cfg, o.disk.segments, o.doc.value)
                            && |o.disk.segments| == o.doc.value.generation
  {
    hide ReplayOk, UniqueJournals, LogOf, Fits;
    CountedBacked(disk.segments, doc);
    if |disk.segments| == doc.generation + 1 {
      if disk.segments[doc.generation] == doc && ReplayOk(cfg, disk.segments, doc) {
        ReplayUnique(cfg, disk.segments, doc);
        RolledUnique(doc);
        RolledLog(disk.segments, doc);
      }
    } else if ReplayOk(cfg, disk.segments, doc) {
      ReplayUnique(cfg, disk.segments, doc);
    }
  }

  lemma UpgradeStep(cfg: Config, disk: Disk, up: Outcome)
    requires Sound(cfg, System(disk, None)) && disk.segments == map[]
    requires var doc := CurrentDocument(cfg, disk); ReplayOk(cfg, disk.segments, Upgraded(doc))
    ensures var disk1 := PutManifest(disk, Upgraded(CurrentDocument(cfg, disk)), up);
            Sound(cfg, System(disk1, None)) && Abs(cfg, System(disk1, None)) == Abs(cfg, System(disk, None))
  {
    hide ReplayOk, UniqueJournals, LogOf;
    var doc := CurrentDocument(cfg, disk);
    CountedBacked(disk.segments, doc);
    ReplayUnique(cfg, disk.segments, Upgraded(doc));
    UpgradedLog(disk.segments, doc);
  }

  /** Opening changes nothing a reader can see, whether or not it succeeds. */
  lemma OpenStep(cfg: Config, disk: Disk, up: Outcome, rec: Outcome)
    requires Sound(cfg, System(disk, None))
    ensures var o := Opening(cfg, disk, up, rec);
            Sound(cfg, System(o.disk, o.doc)) && Abs(cfg, System(o.disk, o.doc)) == Abs(cfg, System(disk, None))
    ensures var o := Opening(cfg, disk, up, rec);
            o.doc.Some? ==> o.doc.value == CurrentDocument(cfg, o.disk) && ReplayOk(cfg, o.disk.segments, o.doc.value)
                            && |o.disk.segments| == o.doc.value.generation
  {
    assert Numbered(disk.segments);
    hide Sound, Abs, ReplayOk, Upgraded, Recovering, Fits;
    var doc := CurrentDocument(cfg, disk);
    if doc.version != 1 {
      RecoverStep(cfg, disk, doc, rec);
    } else if disk.segments == map[] && ReplayOk(cfg, disk.segments, Upgraded(doc)) {
      UpgradeStep(cfg, disk, up);
      if up == Written {
        RecoverStep(cfg, PutManifest(disk, Upgraded(doc), up), Upgraded(doc), rec);
      }
    }
  }

  lemma CommitStep(cfg: Config, o: Opened, a: Action)
    requires a.HandOver? && Sound(cfg, System(o.disk, o.doc)) && o.doc.Some?
    requires o.doc.value == CurrentDocument(cfg, o.disk)
    ensures Sound(cfg, System(Committed(cfg, o, a), None))
    ensures Abs(cfg, System(Committed(cfg, o, a), None)) == Abs(cfg, System(o.disk, None))
  {
    hide PreflightOk, ReplayOk, UniqueJournals, LogOf, Fits, HandedOver, OldHeadMatches, BaselineMatches;
    var m := o.doc.value;
    if CommitOk(cfg, o.disk, m, a.frozen, a.e, a.member, a.baseline, a.at) {
      ReplayUnique(cfg, o.disk.segments, HandedOver(m, ProofOf(a.e), a.member, a.baseline, a.at));
      CountedBacked(o.disk.segments, m);
      HandedLog(o.disk.segments, m, ProofOf(a.e), a.member, a.baseline, a.at);
    }
  }

  lemma HandOverStep(cfg: Config, s: System, a: Action)
    requires Sound(cfg, s) && a.HandOver?
    ensures Sound(cfg, Next(cfg, s, a)) && Abs(cfg, Next(cfg, s, a)) == Abs(cfg, s)
  {
    hide Sound, Abs, Opening, Committed;
    if s.proc.None? {
      OpenStep(cfg, s.disk, a.up, a.rec);
      var o := Opening(cfg, s.disk, a.up, a.rec);
      if o.doc.Some? {
        assert System(o.disk, o.doc) == Up(o.disk, o.doc.value);
        OpenedSame(cfg, o);
        CommitStep(cfg, o, a);
      }
    }
  }

  lemma OpenedSame(cfg: Config, o: Opened)
    requires Sound(cfg, System(o.disk, o.doc)) && o.doc.Some? && o.doc.value == CurrentDocument(cfg, o.disk)
    ensures Sound(cfg, System(o.disk, None)) && Abs(cfg, System(o.disk, None)) == Abs(cfg, System(o.disk, o.doc))
  {}

  /** One step of the collector is one step of the plain log. */
  lemma StepRefines(cfg: Config, s: System, a: Action)
    requires Sound(cfg, s)
    ensures Sound(cfg, Next(cfg, s, a))
    ensures PlainNext(Abs(cfg, s), Abs(cfg, Next(cfg, s, a)), a, Acked(cfg, s, a))
  {
    hide Sound, Abs, Opening, Capturing, Committed;
    match a {
      case Open(_, _) =>
        if s.proc.None? {
          OpenStep(cfg, s.disk, a.up, a.rec);
        }
      case Capture(_, _, _, _, _) => CaptureStep(cfg, s, a);
      case HandOver(_, _, _, _, _, _, _, _) => HandOverStep(cfg, s, a);
      case Kill =>
        if s.proc.Some? {
          assert s == Up(s.disk, s.proc.value);
          Dropped(cfg, s.disk, s.proc.value);
        }
    }
  }

  // ---------------------------------------------------------------------------
  // Runs

  /** What is stored is what is served, or one unacknowledged page more. */
  ghost predicate OnePageAhead(p: Plain)
    requires Full(p.served)
  {
    exists j: string, es: seq<Event> :: p.stored == Append(p.served, j, es)
  }

  ghost predicate LogLe(a: Log, b: Log)
    requires Full(a) && Full(b)
  {
    forall j: string :: a[j] <= b[j]
  }

  lemma SameIsAhead(log: Log)
    requires Full(log)
    ensures OnePageAhead(Plain(log, log))
  {
    assert log[""] + [] == log[""];
    assert log == Append(log, "", []);
  }

  lemma PlainGrows(p: Plain, q: Plain, a: Action, acked: bool)
    requires Full(p.served) && Full(p.stored) && Full(q.served) && Full(q.stored)
    requires OnePageAhead(p) && PlainNext(p, q, a, acked)
    ensures OnePageAhead(q) && LogLe(p.served, q.served)
  {
    SameIsAhead(q.served);
    if a.Capture? && q.stored == Append(p.served, a.cursor.journalId, a.page.events) && q.served == p.served {
      assert q.stored == Append(q.served, a.cursor.journalId, a.page.events);
    }
  }

  lemma InitialSound(cfg: Config, s: System)
    requires Initial(s)
    ensures Sound(cfg, s) && OnePageAhead(Abs(cfg, s))
  {
    SameIsAhead(Abs(cfg, s).stored);
  }

  /** Step `i` of a run. */
  lemma {:induction false} RunStep(cfg: Config, s: System, actions: seq<Action>, i: nat)
    requires Initial(s) && i < |actions|
    ensures var x, y := After(cfg, s, actions[..i]), After(cfg, s, actions[..i + 1]);
            && y == Next(cfg, x, actions[i]) && Sound(cfg, x) && Sound(cfg, y)
            && PlainNext(Abs(cfg, x), Abs(cfg, y), actions[i], Acked(cfg, x, actions[i]))
            && LogLe(Abs(cfg, x).served, Abs(cfg, y).served) && OnePageAhead(Abs(cfg, y))
    decreases i
  {
    hide Sound, Abs, Next, PlainNext, OnePageAhead, LogLe;
    var x := After(cfg, s, actions[..i]);
    assert actions[..i + 1][..i] == actions[..i];
    RunSoundTo(cfg, s, actions, i);
    StepRefines(cfg, x, actions[i]);
    PlainGrows(Abs(cfg, x), Abs(cfg, Next(cfg, x, actions[i])), actions[i], Acked(cfg, x, actions[i]));
  }

  lemma {:induction false} RunSoundTo(cfg: Config, s: System, actions: seq<Action>, i: nat)
    requires Initial(s) && i <= |actions|
    ensures Sound(cfg, After(cfg, s, actions[..i])) && OnePageAhead(Abs(cfg, After(cfg, s, actions[..i])))
    decreases i, 0
  {
    if i == 0 {
      InitialSound(cfg, s);
    } else {
      RunStep(cfg, s, actions, i - 1);
    }
  }

  /** Nothing a process has served is ever missing or changed later. */
  lemma {:induction false} RunGrows(cfg: Config, s: System, actions: seq<Action>, i: nat, k: nat)
    requires Initial(s) && i <= k <= |actions|
    ensures var x, y := After(cfg, s, actions[..i]), After(cfg, s, actions[..k]);
            Sound(cfg, x) && Sound(cfg, y) && LogLe(Abs(cfg, x).served, Abs(cfg, y).served)
    decreases k
  {
    hide Sound, Abs, Next, PlainNext, OnePageAhead;
    RunSoundTo(cfg, s, actions, i);
    if i < k {
      RunGrows(cfg, s, actions, i, k - 1);
      RunStep(cfg, s, actions, k - 1);
    }
  }

  /** Every event of an acknowledged page is in its journal, at the place it was
      appended, in every later state of every run. */
  lemma AcknowledgedSurvives(cfg: Config, s: System, actions: seq<Action>, i: nat, k: nat)
    requires Initial(s) && i < k <= |actions|
    requires Acked(cfg, After(cfg, s, actions[..i]), actions[i])
    ensures var x, y := After(cfg, s, actions[..i]), After(cfg, s, actions[..k]);
            && Sound(cfg, x) && Sound(cfg, y)
            && LogLe(Append(Abs(cfg, x).served, actions[i].cursor.journalId, actions[i].page.events),
                     Abs(cfg, y).served)
  {
    hide Sound, Abs, Next, OnePageAhead;
    RunStep(cfg, s, actions, i);
    RunGrows(cfg, s, actions, i + 1, k);
  }

  /** The pages acknowledged so far, appended in order to what was there. */
  ghost function AckedLog(cfg: Config, s: System, actions: seq<Action>): (log: Log)
    requires Initial(s)
    ensures Full(log)
  {
    InitialSound(cfg, s);
    if actions == [] then Abs(cfg, s).stored
    else
      var n := |actions| - 1;
      var log, a := AckedLog(cfg, s, actions[..n]), actions[n];
      if Acked(cfg, After(cfg, s, actions[..n]), a) then Append(log, a.cursor.journalId, a.page.events) else log
  }

  /** Without a page in doubt the collector is exactly the plain log of the
      acknowledged pages, over any rollovers, deaths, reopens and handoffs. */
  lemma {:induction false} ExactLog(cfg: Config, s: System, actions: seq<Action>)
    requires Initial(s) && forall i :: 0 <= i < |actions| && actions[i].Capture? ==> !InDoubt(actions[i].w.page)
    ensures Sound(cfg, After(cfg, s, actions))
    ensures Abs(cfg, After(cfg, s, actions)) == Plain(AckedLog(cfg, s, actions), AckedLog(cfg, s, actions))
  {
    if actions == [] {
      InitialSound(cfg, s);
    } else {
      hide Sound, Abs, Next, OnePageAhead, LogLe, Acked;
      var n := |actions| - 1;
      ExactLog(cfg, s, actions[..n]);
      RunStep(cfg, s, actions, n);
      assert actions[..n + 1] == actions;
    }
  }
}
