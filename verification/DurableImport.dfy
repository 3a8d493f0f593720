/** Importing the tail of a retired member's journal from its frozen snapshot
    (cmd/halro-ha-health/retired_member_reconcile.go). */
module DurableImport {
  import opened Basics
  import opened Transitions
  import opened DurableDocument
  import opened DurableCapture
  import opened DurableArchive
  import opened DurableRuns
  import opened DurableHandoff
  import opened DurableFreeze
  import opened DurableFetch
  import opened SnapshotComparison

  /** One authenticated read of the snapshot. */
  datatype Read = Read(member: MemberReport, page: Page)

  datatype ImportReport = ImportReport(nodeId: string, incarnation: string, journalId: string, fromSequence: U64,
                                       importedEvents: nat, committed: U64, committedDigest: string, inventory: string)

  predicate MemberMatches(read: Read, cluster: string, node: string, chain: Chain, start: Cursor, inventory: string) {
    var member, page := read.member, read.page;
    && member.clusterId == cluster && member.nodeId == node && member.incarnation == chain.incarnation
    && member.journalId == chain.cursor.journalId && member.baselineDigest == chain.cursor.baselineDigest
    && member.baselineKind == chain.baselineKind && start.sequence <= member.committed
    && page.committed == member.committed && page.headDigest == member.committedDigest
    && (inventory == "" || inventory == member.inventory)
  }

  predicate PageConsistent(read: Read, start: Cursor) {
    var member, page := read.member, read.page;
    && page.nextJournalId == start.journalId && !(page.events == [] && page.hasMore)
    && page.nextSequence == start.sequence + |page.events|
    && page.hasMore == (page.nextSequence < member.committed)
  }

  predicate LinksTo(c: Cursor, e: Event) {
    && e.sequence == Inc(c.sequence) && e.previousDigest == c.digest
    && e.fromRole == c.role && e.fromTerm == c.term && e.fromPromised == c.promised
  }

  predicate LinkedAt(start: Cursor, es: seq<Event>, i: nat)
    requires i < |es|
  {
    LinksTo(CursorAt(start, es, i), es[i])
  }

  /** The cursor behind the page, if every event links to its predecessor. */
  method WalkPage(start: Cursor, es: seq<Event>) returns (next: Option<Cursor>)
    ensures next.Some? <==> forall i :: 0 <= i < |es| ==> LinkedAt(start, es, i)
    ensures next.Some? ==> next.value == EndCursor(start, es)
  {
    var cursor := start;
    for i := 0 to |es|
      invariant cursor == CursorAt(start, es, i)
      invariant forall k :: 0 <= k < i ==> LinkedAt(start, es, k)
    {
      assert LinksTo(cursor, es[i]) == LinkedAt(start, es, i);
      if !LinksTo(cursor, es[i]) {
        return None;
      }
      cursor := Advance(cursor, es[i]);
    }
    return Some(cursor);
  }

  /** Everything that is checked about a read before its page is captured. */
  predicate Checked(read: Read, cluster: string, node: string, chain: Chain, start: Cursor, inventory: string) {
    && MemberMatches(read, cluster, node, chain, start, inventory) && PageConsistent(read, start)
    && (forall i :: 0 <= i < |read.page.events| ==> LinkedAt(start, read.page.events, i))
    && EndCursor(start, read.page.events).digest == read.page.nextDigest
    && EndCursor(start, read.page.events).sequence == read.page.nextSequence
  }

  method CheckRead(read: Option<Read>, cluster: string, node: string, chain: Chain, start: Cursor, inventory: string)
    returns (next: Option<Cursor>)
    ensures next.Some? <==> read.Some? && Checked(read.value, cluster, node, chain, start, inventory)
    ensures next.Some? ==> next.value == EndCursor(start, read.value.page.events)
  {
    if read.None? || !MemberMatches(read.value, cluster, node, chain, start, inventory) {
      return None;
    }
    var page := read.value.page;
    if !PageConsistent(read.value, start) {
      return None;
    }
    next := WalkPage(start, page.events);
    if next.None? || next.value.digest != page.nextDigest || next.value.sequence != page.nextSequence {
      return None;
    }
  }

  lemma CheckedMeans(read: Read, cluster: string, node: string, chain: Chain, start: Cursor, inventory: string)
    requires Checked(read, cluster, node, chain, start, inventory)
    ensures read.page.nextJournalId == start.journalId && (read.page.events == [] ==> !read.page.hasMore)
    ensures EndCursor(start, read.page.events).sequence == start.sequence + |read.page.events|
    ensures EndCursor(start, read.page.events).journalId == start.journalId
  {}

  /** The node's last chain stands at this cursor. */
  ghost predicate LastAt(d: Document, node: string, cursor: Cursor) {
    ChainsOf(d, node) != [] && ChainsOf(d, node)[|ChainsOf(d, node)| - 1].cursor == cursor
  }

  ghost function Served(archive: Archive): Log
    reads archive, archive.files
    requires Sound(archive.cfg, Up(archive.files.Contents(), archive.doc))
  {
    Abs(archive.cfg, Up(archive.files.Contents(), archive.doc)).served
  }

  /** An acknowledged document is the prepared one, rolled over before or not. */
  lemma AckedShape(cfg: Config, disk: Disk, m: Document, a: Action)
    requires a.Capture? && Capturing(cfg, disk, m, a.node, a.page, a.cursor, a.now, a.w).ok
    ensures var doc := Capturing(cfg, disk, m, a.node, a.page, a.cursor, a.now, a.w).doc;
            || Prepare(m, a.node, a.page, a.cursor, a.now) == Ready(doc)
            || Prepare(Rolled(m), a.node, a.page, a.cursor, a.now) == Ready(doc)
  {
    hide Prepare, Rolled, HasEvents, Fits;
  }

  lemma RolledLast(m: Document, node: string, cursor: Cursor)
    requires LastAt(m, node, cursor)
    ensures LastAt(Rolled(m), node, cursor)
  {}

  /** An acknowledged page for the node's own journal lands on its last chain. */
  lemma CaptureLands(cfg: Config, disk: Disk, m: Document, a: Action, start: Cursor)
    requires a.Capture? && LastAt(m, a.node, start) && a.page.nextJournalId == start.journalId
    requires Capturing(cfg, disk, m, a.node, a.page, a.cursor, a.now, a.w).ok
    ensures LastAt(Capturing(cfg, disk, m, a.node, a.page, a.cursor, a.now, a.w).doc, a.node, a.cursor)
    ensures a.cursor.journalId == start.journalId
  {
    hide Prepare, Rolled, Capturing, LastAt;
    AckedShape(cfg, disk, m, a);
    RolledLast(m, a.node, start);
    if Prepare(m, a.node, a.page, a.cursor, a.now).Ready? {
      PrepareLands(m, a.node, a.page, a.cursor, a.now, start);
    }
    if Prepare(Rolled(m), a.node, a.page, a.cursor, a.now).Ready? {
      PrepareLands(Rolled(m), a.node, a.page, a.cursor, a.now, start);
    }
  }

  lemma PrepareLands(m: Document, node: string, page: Page, cursor: Cursor, now: Time, start: Cursor)
    requires LastAt(m, node, start) && page.nextJournalId == start.journalId
    requires Prepare(m, node, page, cursor, now).Ready?
    ensures LastAt(Prepare(m, node, page, cursor, now).doc, node, cursor) && cursor.journalId == start.journalId
  {}

  lemma AppendTwice(log: Log, j: string, a: seq<Event>, b: seq<Event>)
    requires Full(log)
    ensures Append(Append(log, j, a), j, b) == Append(log, j, a + b)
  {
    assert log[j] + a + b == log[j] + (a + b);
  }

  // ---------------------------------------------------------------------------
  // A member that is what the collector knows, and its tail

  /** Where the import stands after `p` events of the tail. */
  function TailCursor(chain: Chain, tail: seq<Event>, p: nat): Cursor
    requires p <= |tail|
  {
    CursorAt(chain.cursor, tail, p)
  }

  /** The snapshot's member is the chain's, and its tail leads from the chain to its
      head. */
  predicate TailOf(m: MemberReport, cluster: string, node: string, chain: Chain, tail: seq<Event>) {
    && m.clusterId == cluster && m.nodeId == node && m.incarnation == chain.incarnation
    && m.journalId == chain.cursor.journalId && m.baselineDigest == chain.cursor.baselineDigest
    && m.baselineKind == chain.baselineKind && ValidDigest(m.committedDigest)
    && Accepts(chain.cursor, chain.lastAt, tail)
    && m.committed == chain.cursor.sequence + |tail| && m.committedDigest == EndCursor(chain.cursor, tail).digest
  }

  /** The page holds the tail from `p` to `q` and says whether there is more. */
  predicate PageOfTail(page: Page, m: MemberReport, chain: Chain, tail: seq<Event>, p: nat, q: nat)
    requires p <= q <= |tail|
  {
    && page.version == 1 && page.clusterId == m.clusterId && page.nodeId == m.nodeId
    && page.incarnation == m.incarnation && SameBaseline(chain, page)
    && page.committed == m.committed && page.headDigest == m.committedDigest
    && page.events == tail[p..q] && page.hasMore == (q < |tail|)
    && page.nextJournalId == m.journalId && page.nextSequence == TailCursor(chain, tail, q).sequence
    && page.nextDigest == TailCursor(chain, tail, q).digest
  }

  /** Every read from a place in the tail brings at least one event more, if any is
      left. */
  ghost predicate Frozen(source: Cursor -> Option<Read>, m: MemberReport, chain: Chain, tail: seq<Event>) {
    forall p: nat :: p <= |tail| ==> ReadsOn(source(TailCursor(chain, tail, p)), m, chain, tail, p)
  }

  ghost predicate ReadsOn(read: Option<Read>, m: MemberReport, chain: Chain, tail: seq<Event>, p: nat)
    requires p <= |tail|
  {
    && read.Some? && read.value.member == m
    && exists q: nat :: p <= q <= |tail| && (p < |tail| ==> p < q) && PageOfTail(read.value.page, m, chain, tail, p, q)
  }

  /** The archive is in order and its last chain of the node is `p` events into the
      tail. */
  ghost predicate Standing(disk: Disk, d: Document, cluster: string, node: string, chain: Chain, tail: seq<Event>,
                           p: nat)
    requires p <= |tail|
  {
    && Climbs(d) && d.version != 1 && d.cluster == cluster && node in d.members
    && Numbered(disk.segments) && |disk.segments| == d.generation
    && ChainsOf(d, node) != [] && StandsAt(ChainsOf(d, node)[|ChainsOf(d, node)| - 1], chain, tail, p)
  }

  predicate StandsAt(c: Chain, chain: Chain, tail: seq<Event>, p: nat)
    requires p <= |tail|
  {
    && c.incarnation == chain.incarnation && c.baselineKind == chain.baselineKind
    && c.baselineRole == chain.baselineRole
    && c.baselineTerm == chain.baselineTerm && c.baselinePromised == chain.baselinePromised
    && c.cursor == TailCursor(chain, tail, p) && c.lastAt == TimeAt(chain.lastAt, tail, p)
  }

  lemma TailSlice(start: Cursor, at: Time, tail: seq<Event>, p: nat, q: nat)
    requires p <= q <= |tail| && Accepts(start, at, tail)
    ensures Accepts(CursorAt(start, tail, p), TimeAt(at, tail, p), tail[p..q])
    ensures EndCursor(CursorAt(start, tail, p), tail[p..q]) == CursorAt(start, tail, q)
    ensures EndTime(TimeAt(at, tail, p), tail[p..q]) == TimeAt(at, tail, q)
  {
    forall i | 0 <= i < q - p ensures StepOk(CursorAt(start, tail, p), TimeAt(at, tail, p), tail[p..q], i) {
      assert StepOk(start, at, tail, p + i);
    }
  }

  /** Such a page is taken. */
  lemma TailResumes(c: Chain, m: MemberReport, cluster: string, node: string, chain: Chain, tail: seq<Event>,
                    page: Page,
                    p: nat, q: nat)
    requires p <= q <= |tail| && TailOf(m, cluster, node, chain, tail) && PageOfTail(page, m, chain, tail, p, q)
    requires ValidChain(c) && StandsAt(c, chain, tail, p)
    ensures ResumesAt(c, page, TailCursor(chain, tail, q))
    ensures TailCursor(chain, tail, q).sequence == chain.cursor.sequence + q
  {
    TailSlice(chain.cursor, chain.lastAt, tail, p, q);
    Numbering(chain.cursor, chain.lastAt, tail, p);
    Numbering(chain.cursor, chain.lastAt, tail, q);
    if p < q {
      assert StepOk(chain.cursor, chain.lastAt, tail, q - 1);
    }
    if q == |tail| {
      assert TailCursor(chain, tail, q) == EndCursor(chain.cursor, tail);
    }
  }

  lemma NewestIs(d: Document, node: string)
    requires ChainsOf(d, node) != []
    ensures Newest(d, node, |ChainsOf(d, node)| - 1)
  {}

  /** It is taken into the document or its rollover, and moves the chain on. */
  lemma TailPrepared(disk: Disk, d: Document, m: MemberReport, cluster: string, node: string, chain: Chain,
                     tail: seq<Event>, page: Page, p: nat, q: nat, now: Time)
    requires p <= q <= |tail| && TailOf(m, cluster, node, chain, tail) && PageOfTail(page, m, chain, tail, p, q)
    requires Standing(disk, d, cluster, node, chain, tail, p) && now != ZERO_TIME
    ensures var r := Prepare(d, node, page, TailCursor(chain, tail, q), now);
            && r.Ready? && r.doc.generation == d.generation && AllValid(d)
            && Standing(disk, r.doc, cluster, node, chain, tail, q)
  {
    var t := |ChainsOf(d, node)| - 1;
    var c, to := ChainsOf(d, node)[t], TailCursor(chain, tail, q);
    assert At(d, node, t) && ChainAt(d, node, t) == c && ChainClimbs(c);
    assert AllValid(d) by {
      forall n, i | At(d, n, i) ensures ValidChain(ChainAt(d, n, i)) {
        assert ChainClimbs(ChainAt(d, n, i));
      }
    }
    TailResumes(c, m, cluster, node, chain, tail, page, p, q);
    NewestIs(d, node);
    hide AllValid, ValidChain, ResumesAt, Climbs;
    assert Resumes(d, node, page, to);
    TakenExactly(d, node, page, to, now);
    PreparedClimbing(d, node, page, to, now);
    PreparedVersion(d, node, page, to, now);
    PreparedGeneration(d, node, page, to, now);
    CapturePositions(d, node, page, to, now);
    TailMoved(c, chain, tail, page, p, q, now);
    PreparedMembers(d, node, page, to, now);
  }

  lemma PreparedMembers(d: Document, node: string, page: Page, cursor: Cursor, now: Time)
    requires Prepare(d, node, page, cursor, now).Ready? && ChainsOf(d, node) != []
    requires ChainsOf(d, node)[|ChainsOf(d, node)| - 1].incarnation == page.incarnation
    ensures var x, cs := Prepare(d, node, page, cursor, now).doc, ChainsOf(d, node);
            && x.members == d.members && x.cluster == d.cluster
            && ChainsOf(x, node) == cs[|cs| - 1 := Extended(cs[|cs| - 1], page, cursor, now)]
  {}

  lemma TailMoved(c: Chain, chain: Chain, tail: seq<Event>, page: Page, p: nat, q: nat, now: Time)
    requires p <= q <= |tail| && StandsAt(c, chain, tail, p) && page.events == tail[p..q]
    ensures StandsAt(Extended(c, page, TailCursor(chain, tail, q), now), chain, tail, q)
  {}

  lemma RolledStanding(disk: Disk, d: Document, cluster: string, node: string, chain: Chain, tail: seq<Event>, p: nat)
    requires p <= |tail| && Standing(disk, d, cluster, node, chain, tail, p)
    ensures Standing(disk.(segments := disk.segments[d.generation := d]), Rolled(d), cluster, node, chain, tail, p)
  {
    RolledClimbing(d);
    NumberedGrows(disk.segments, d);
    hide Climbs;
    assert ChainsOf(Rolled(d), node) == RolledChains(ChainsOf(d, node));
  }

  /** Nothing is ever too large. */
  ghost predicate Roomy(cfg: Config) {
    forall d: Document :: Fits(cfg, d)
  }

  lemma RoomyRoom(cfg: Config, disk: Disk, d: Document, node: string, page: Page, cursor: Cursor, now: Time)
    requires Roomy(cfg) && d.generation !in disk.segments
    ensures Room(cfg, disk, d, node, page, cursor, now)
  {
    hide Prepare, Rolled, HasEvents;
  }

  lemma StandingNext(disk: Disk, d: Document, cluster: string, node: string, chain: Chain, tail: seq<Event>, p: nat)
    requires p <= |tail| && Standing(disk, d, cluster, node, chain, tail, p)
    ensures d.generation !in disk.segments
  {}

  /** With room and working writes the page is acknowledged and the import moves on. */
  lemma TailCaptured(cfg: Config, disk: Disk, d: Document, m: MemberReport, cluster: string, node: string, chain: Chain,
                     tail: seq<Event>, page: Page, p: nat, q: nat, now: Time)
    requires Roomy(cfg) && now != ZERO_TIME
    requires p <= q <= |tail| && TailOf(m, cluster, node, chain, tail) && PageOfTail(page, m, chain, tail, p, q)
    requires Standing(disk, d, cluster, node, chain, tail, p)
    ensures var r := Capturing(cfg, disk, d, node, page, TailCursor(chain, tail, q), now, Working);
            r.ok && Standing(r.disk, r.doc, cluster, node, chain, tail, q)
  {
    hide Standing, TailOf, PageOfTail, Prepare, Capturing, AllValid, Rolled, Roomy, Room, HasEvents, TailCursor;
    var to, rolled := TailCursor(chain, tail, q), disk.(segments := disk.segments[d.generation := d]);
    StandingNext(disk, d, cluster, node, chain, tail, p);
    RoomyRoom(cfg, disk, d, node, page, to, now);
    TailPrepared(disk, d, m, cluster, node, chain, tail, page, p, q, now);
    RolledStanding(disk, d, cluster, node, chain, tail, p);
    TailPrepared(rolled, Rolled(d), m, cluster, node, chain, tail, page, p, q, now);
    CapturedExactly(cfg, disk, d, node, page, to, now);
    var r := Capturing(cfg, disk, d, node, page, to, now, Working);
    if Host(cfg, d, Prepare(d, node, page, to, now).doc, page) == d {
      SameStanding(disk, r.disk, r.doc, cluster, node, chain, tail, q);
    } else {
      SameStanding(rolled, r.disk, r.doc, cluster, node, chain, tail, q);
    }
  }

  lemma SameStanding(a: Disk, b: Disk, d: Document, cluster: string, node: string, chain: Chain, tail: seq<Event>,
                     p: nat)
    requires p <= |tail| && a.segments == b.segments
    ensures Standing(a, d, cluster, node, chain, tail, p) <==> Standing(b, d, cluster, node, chain, tail, p)
  {}

  lemma TailStart(chain: Chain, tail: seq<Event>)
    ensures TailCursor(chain, tail, 0) == chain.cursor
  {}

  lemma NextPlace(read: Option<Read>, m: MemberReport, chain: Chain, tail: seq<Event>, p: nat) returns (q: nat)
    requires p <= |tail| && ReadsOn(read, m, chain, tail, p)
    ensures p <= q <= |tail| && (p < |tail| ==> p < q)
    ensures read.Some? && read.value.member == m && PageOfTail(read.value.page, m, chain, tail, p, q)
  {
    q :| p <= q <= |tail| && (p < |tail| ==> p < q) && PageOfTail(read.value.page, m, chain, tail, p, q);
  }

  lemma TailPlace(m: MemberReport, cluster: string, node: string, chain: Chain, tail: seq<Event>, page: Page, p: nat,
                  q: nat)
    requires p <= q <= |tail| && TailOf(m, cluster, node, chain, tail) && PageOfTail(page, m, chain, tail, p, q)
    ensures tail[..p] + page.events == tail[..q] && |page.events| == q - p && page.hasMore == (q < |tail|)
    ensures q == |tail| ==> TailCursor(chain, tail, q).sequence == m.committed
                            && TailCursor(chain, tail, q).digest == m.committedDigest
  {
    Numbering(chain.cursor, chain.lastAt, tail, q);
  }

  /** An honest import so far: exactly a prefix of the tail, and in order. */
  ghost predicate Underway(archive: Archive, cluster: string, node: string, chain: Chain, m: MemberReport,
                           tail: seq<Event>,
                           imported: seq<Event>, start: Cursor, inventory: string)
    reads archive, archive.files
  {
    && |imported| <= |tail| && imported == tail[..|imported|] && start == TailCursor(chain, tail, |imported|)
    && Standing(archive.files.Contents(), archive.doc, cluster, node, chain, tail, |imported|)
    && (inventory == "" || inventory == m.inventory)
  }

  /** One page of the import. */
  method ImportPage(archive: Archive, node: string, start: Cursor, page: Page, next: Cursor, now: Time, w: Writes)
    returns (acked: bool)
    requires archive.alive && Sound(archive.cfg, Up(archive.files.Contents(), archive.doc))
    requires LastAt(archive.doc, node, start) && page.nextJournalId == start.journalId
    modifies archive, archive.files
    ensures Sound(archive.cfg, Up(archive.files.Contents(), archive.doc))
    ensures acked ==> archive.alive && LastAt(archive.doc, node, next) && next.journalId == start.journalId
    ensures var r := Capturing(archive.cfg, old(archive.files.Contents()), old(archive.doc), node, page, next, now, w);
            acked == r.ok && archive.files.Contents() == r.disk && archive.doc == r.doc
    ensures Served(archive) == if acked then Append(old(Served(archive)), next.journalId, page.events)
                               else old(Served(archive))
  {
    hide Sound, Abs, Capturing, LastAt;
    ghost var a, disk, doc := Action.Capture(node, page, next, now, w), archive.files.Contents(), archive.doc;
    CaptureEnds(archive.cfg, disk, doc, node, page, next, now, w);
    if Capturing(archive.cfg, disk, doc, node, page, next, now, w).ok {
      CaptureLands(archive.cfg, disk, doc, a, start);
    }
    acked := archive.Capture(node, page, next, now, w);
  }

  /** The archive and the frozen member fit together, and nothing fails. */
  ghost predicate Honest(archive: Archive, cluster: string, node: string, source: Cursor -> Option<Read>,
                         clock: nat -> Time, writes: nat -> Writes, m: MemberReport, tail: seq<Event>)
    reads archive, archive.files
  {
    && Roomy(archive.cfg) && (forall r :: clock(r) != ZERO_TIME && writes(r) == Working)
    && ChainsOf(archive.doc, node) != []
    && var chain := ChainsOf(archive.doc, node)[|ChainsOf(archive.doc, node)| - 1];
    && TailOf(m, cluster, node, chain, tail) && Frozen(source, m, chain, tail)
    && Standing(archive.files.Contents(), archive.doc, cluster, node, chain, tail, 0)
  }

  /** A read from an honest source passes every check. */
  lemma HonestRead(read: Read, m: MemberReport, cluster: string, node: string, chain: Chain, tail: seq<Event>, p: nat,
                   q: nat,
                   inventory: string)
    requires p <= q <= |tail| && TailOf(m, cluster, node, chain, tail) && (p < |tail| ==> p < q)
    requires read.member == m && PageOfTail(read.page, m, chain, tail, p, q)
    requires inventory == "" || inventory == m.inventory
    ensures Checked(read, cluster, node, chain, TailCursor(chain, tail, p), inventory)
    ensures EndCursor(TailCursor(chain, tail, p), read.page.events) == TailCursor(chain, tail, q)
  {
    Numbering(chain.cursor, chain.lastAt, tail, p);
    Numbering(chain.cursor, chain.lastAt, tail, q);
    TailSlice(chain.cursor, chain.lastAt, tail, p, q);
    var es, from := read.page.events, TailCursor(chain, tail, p);
    forall i | 0 <= i < |es| ensures LinkedAt(from, es, i) {
      assert StepOk(from, TimeAt(chain.lastAt, tail, p), es, i);
    }
  }

  /** reconcileRetiredMemberSnapshot on an opened archive.  Each round decreases
      what is left of the journal's number range; no round but the last imports
      nothing. */
  method ImportTail(archive: Archive, cluster: string, node: string, source: Cursor -> Option<Read>,
                    clock: nat -> Time, writes: nat -> Writes, ghost m: MemberReport, ghost tail: seq<Event>)
    returns (report: Option<ImportReport>, ghost imported: seq<Event>, rounds: nat)
    requires archive.alive && Sound(archive.cfg, Up(archive.files.Contents(), archive.doc))
    modifies archive, archive.files
    ensures Sound(archive.cfg, Up(archive.files.Contents(), archive.doc))
    ensures ChainsOf(old(archive.doc), node) == [] ==> report.None? && Served(archive) == old(Served(archive))
    ensures ChainsOf(old(archive.doc), node) != [] ==>
              var c := old(ChainsOf(archive.doc, node)[|ChainsOf(archive.doc, node)| - 1]);
              && Served(archive) == Append(old(Served(archive)), c.cursor.journalId, imported)
              && rounds <= |imported| + 1
              && (report.Some? ==>
                    && LastAt(archive.doc, node, EndCursor(c.cursor, imported))
                    && report.value.journalId == c.cursor.journalId && report.value.incarnation == c.incarnation
                    && report.value.fromSequence == c.cursor.sequence && report.value.importedEvents == |imported|
                    && report.value.fromSequence + |imported| == report.value.committed
                    && EndCursor(c.cursor, imported).sequence == report.value.committed
                    && EndCursor(c.cursor, imported).digest == report.value.committedDigest)
    ensures old(Honest(archive, cluster, node, source, clock, writes, m, tail)) ==> report.Some? && imported == tail
  {
    hide Sound, Abs, Checked, Standing, TailOf, PageOfTail, Roomy, ReadsOn, TailCursor, Capturing, LogOf;
    report, imported, rounds := None, [], 0;
    ghost var honest := Honest(archive, cluster, node, source, clock, writes, m, tail);
    var chains := ChainsOf(archive.doc, node);
    if chains == [] {
      return;
    }
    var chain := chains[|chains| - 1];
    var start, inventory, count := chain.cursor, "", 0;
    ghost var before := Served(archive);
    assert before[chain.cursor.journalId] + [] == before[chain.cursor.journalId];
    assert Append(before, chain.cursor.journalId, []) == before;
    assert LastAt(archive.doc, node, start) && EndCursor(chain.cursor, []) == chain.cursor;
    TailStart(chain, tail);
    hide LastAt, EndCursor;
    while true
      invariant archive.alive && Sound(archive.cfg, Up(archive.files.Contents(), archive.doc))
      invariant LastAt(archive.doc, node, start) && start == EndCursor(chain.cursor, imported)
      invariant start.journalId == chain.cursor.journalId
      invariant start.sequence == chain.cursor.sequence + |imported| && count == |imported| && rounds <= |imported|
      invariant Served(archive) == Append(before, chain.cursor.journalId, imported)
      invariant honest ==> Underway(archive, cluster, node, chain, m, tail, imported, start, inventory)
      decreases U64_SIZE - start.sequence
    {
      var read := source(start);
      ghost var p, q := |imported|, 0;
      if honest {
        assert ReadsOn(read, m, chain, tail, p);
        q := NextPlace(read, m, chain, tail, p);
        HonestRead(read.value, m, cluster, node, chain, tail, p, q, inventory);
        TailCaptured(archive.cfg, archive.files.Contents(), archive.doc, m, cluster, node, chain, tail, read.value.page,
                     p, q, clock(rounds));
      }
      var next := CheckRead(read, cluster, node, chain, start, inventory);
      if next.None? {
        return;
      }
      CheckedMeans(read.value, cluster, node, chain, start, inventory);
      inventory := read.value.member.inventory;
      var page := read.value.page;
      var acked := ImportPage(archive, node, start, page, next.value, clock(rounds), writes(rounds));
      rounds := rounds + 1;
      if !acked {
        return;
      }
      EndsConcat(chain.cursor, ZERO_TIME, imported, page.events);
      AppendTwice(before, chain.cursor.journalId, imported, page.events);
      imported, count, start := imported + page.events, count + |page.events|, next.value;
      if honest {
        TailPlace(m, cluster, node, chain, tail, page, p, q);
      }
      if !page.hasMore {
        if start.sequence == read.value.member.committed && start.digest == read.value.member.committedDigest {
          report := Some(ImportReport(node, chain.incarnation, chain.cursor.journalId, chain.cursor.sequence, count,
                                      read.value.member.committed, read.value.member.committedDigest, inventory));
        }
        return;
      }
    }
  }
}
