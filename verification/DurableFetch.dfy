/** Which pages a collector takes: the cursor it asks from, the pages that come
    back from there, and when a capture acknowledges one of them
    (cursor, capture and pollDurableOnce in
    cmd/halro-ha-health/durable_archive.go). */
module DurableFetch {
  import opened Basics
  import opened Transitions
  import opened DurableDocument
  import opened DurableCapture
  import opened DurableArchive
  import opened DurableRuns
  import opened DurableFreeze
  import opened DurableHandoff
  import opened DurableLimits

  // ---------------------------------------------------------------------------
  // When a page is taken

  /** The page belongs to a member of the document's cluster. */
  predicate Addressed(d: Document, node: string, page: Page) {
    node in d.members && page.nodeId == node && page.clusterId == d.cluster && page.version == 1
  }

  /** The node has not had this incarnation, and nobody this journal. */
  ghost predicate Unknown(d: Document, node: string, page: Page) {
    && (forall i :: At(d, node, i) ==> ChainAt(d, node, i).incarnation != page.incarnation)
    && (forall n, i :: At(d, n, i) ==> JournalAt(d, n, i) != page.nextJournalId)
  }

  /** A baseline a journal may start from. */
  predicate BaselineOk(page: Page) {
    && page.incarnation != "" && !page.baselineKind.OtherBaseline?
    && ValidJournalId(page.nextJournalId) && ValidDigest(page.baselineDigest)
    && ValidRole(page.baselineRole) && page.baselineTerm <= page.baselinePromised
  }

  /** `i` is the node's newest chain. */
  predicate Newest(d: Document, node: string, i: nat) {
    At(d, node, i) && !At(d, node, i + 1)
  }

  predicate SameBaseline(c: Chain, page: Page) {
    && c.baselineKind == page.baselineKind && c.baselineRole == page.baselineRole
    && c.baselineTerm == page.baselineTerm && c.baselinePromised == page.baselinePromised
  }

  /** The events lead from `from`, last dated `at`, to `to`, and the member's head
      is not behind it. */
  predicate Leads(page: Page, from: Cursor, at: Time, to: Cursor) {
    && Accepts(from, at, page.events) && EndCursor(from, page.events) == to
    && to.sequence == from.sequence + |page.events| && to.sequence <= page.committed
    && ValidDigest(page.headDigest) && ValidDigest(to.digest)
    && (to.sequence == page.committed ==> to.digest == page.headDigest)
  }

  /** The page goes on in the node's newest chain. */
  ghost predicate Resumes(d: Document, node: string, page: Page, cursor: Cursor) {
    exists i: nat :: Newest(d, node, i) && ResumesAt(ChainAt(d, node, i), page, cursor)
  }

  predicate ResumesAt(c: Chain, page: Page, cursor: Cursor) {
    c.incarnation == page.incarnation && SameBaseline(c, page) && Leads(page, c.cursor, c.lastAt, cursor)
  }

  /** The page starts a chain of its own. */
  ghost predicate Begins(d: Document, node: string, page: Page, cursor: Cursor) {
    Unknown(d, node, page) && BaselineOk(page) && Leads(page, PageBaseline(page), ZERO_TIME, cursor)
  }

  lemma ExtendedExactly(c: Chain, page: Page, cursor: Cursor, now: Time)
    requires ValidChain(c) && c.incarnation == page.incarnation
    ensures PageFits(c, page, cursor) && ValidChain(Extended(c, page, cursor, now)) <==>
            now != ZERO_TIME && ResumesAt(c, page, cursor)
  {
    AcceptsConcat(c.start, c.startAt, c.events, page.events);
    EndsConcat(c.start, c.startAt, c.events, page.events);
    if page.events != [] && Accepts(c.cursor, c.lastAt, page.events) {
      assert StepOk(c.cursor, c.lastAt, page.events, 0);
    }
  }

  lemma FirstExactly(node: string, page: Page, cursor: Cursor, now: Time)
    ensures var c := FirstChain(node, page);
            PageFits(c, page, cursor) && ValidChain(Extended(c, page, cursor, now)) <==>
            now != ZERO_TIME && BaselineOk(page) && Leads(page, PageBaseline(page), ZERO_TIME, cursor)
  {
    var c := FirstChain(node, page);
    assert c.events + page.events == page.events;
    if page.events != [] && Accepts(c.cursor, c.lastAt, page.events) {
      assert StepOk(c.cursor, c.lastAt, page.events, 0);
    }
  }

  lemma NotReused(d: Document, node: string, page: Page)
    ensures var cs := ChainsOf(d, node);
            (!(exists i :: 0 <= i < |cs| && cs[i].incarnation == page.incarnation)
             && page.nextJournalId !in Journals(d))
            <==> Unknown(d, node, page)
  {
    var cs := ChainsOf(d, node);
    if page.nextJournalId in Journals(d) {
      var n, i :| n in d.chains && 0 <= i < |d.chains[n]| && d.chains[n][i].cursor.journalId == page.nextJournalId;
      assert At(d, n, i) && JournalAt(d, n, i) == page.nextJournalId;
    } else {
      forall n, i | At(d, n, i) ensures JournalAt(d, n, i) != page.nextJournalId {
        JournalsAt(d, n, i);
      }
    }
    if i :| 0 <= i < |cs| && cs[i].incarnation == page.incarnation {
      assert At(d, node, i);
    }
  }

  /** A page is taken if and only if it goes on in the node's newest chain or
      starts one for an incarnation and a journal not seen before. */
  lemma TakenExactly(d: Document, node: string, page: Page, cursor: Cursor, now: Time)
    requires AllValid(d)
    ensures Prepare(d, node, page, cursor, now).Ready? <==>
            Addressed(d, node, page) && now != ZERO_TIME
            && (Resumes(d, node, page, cursor) || Begins(d, node, page, cursor))
  {
    hide ValidChain, PageFits, BaselineOk, Leads, Journals, Unknown;
    var cs := ChainsOf(d, node);
    var t := |cs| - 1;
    assert forall i: nat :: Newest(d, node, i) <==> i == t;
    NotReused(d, node, page);
    if SameIncarnation(cs, page) {
      assert At(d, node, t) && ChainAt(d, node, t).incarnation == page.incarnation;
      ExtendedExactly(cs[t], page, cursor, now);
    } else {
      FirstExactly(node, page, cursor, now);
    }
  }

  // ---------------------------------------------------------------------------
  // Pages that were fetched

  /** archive.cursor: where the next page of an incarnation is asked from. */
  function AskedFrom(d: Document, node: string, incarnation: string): Option<Cursor> {
    var cs := ChainsOf(d, node);
    if cs == [] || cs[|cs| - 1].incarnation != incarnation then None else Some(cs[|cs| - 1].cursor)
  }

  /** What ValidatePage accepts from there. */
  predicate Fetched(d: Document, node: string, page: Page, at: Time) {
    var from := AskedFrom(d, node, page.incarnation);
    && (from.Some? ==> CursorUsable(from.value))
    && PageSchemaOk(page, d.cluster, node, page.incarnation) && PageChainOk(page, from, at)
  }

  /** The cursor ValidatePage returns. */
  function FetchedCursor(d: Document, node: string, page: Page): Cursor {
    EndCursor(PageStart(page, AskedFrom(d, node, page.incarnation)), page.events)
  }

  /** Not dated before the chain's last event, and from its baseline. */
  predicate Joins(c: Chain, page: Page) {
    && c.incarnation == page.incarnation && SameBaseline(c, page)
    && (page.events != [] ==> c.lastAt <= page.events[0].at)
  }

  /** What is left to decide about a fetched page. */
  ghost predicate Welcome(d: Document, node: string, page: Page) {
    && node in d.members
    && (|| (page.incarnation != "" && Unknown(d, node, page))
        || exists i: nat :: Newest(d, node, i) && Joins(ChainAt(d, node, i), page))
  }

  lemma FetchedLeads(d: Document, node: string, page: Page, at: Time)
    requires Fetched(d, node, page, at)
    ensures var from := PageStart(page, AskedFrom(d, node, page.incarnation));
            Leads(page, from, ZERO_TIME, FetchedCursor(d, node, page))
  {
    var from := PageStart(page, AskedFrom(d, node, page.incarnation));
    Numbering(from, ZERO_TIME, page.events, |page.events|);
  }

  /** Only the first event is compared with what came before. */
  lemma LeadsLater(page: Page, from: Cursor, at: Time, to: Cursor)
    requires Leads(page, from, ZERO_TIME, to)
    ensures Leads(page, from, at, to) <==> (page.events != [] ==> at <= page.events[0].at)
  {
    forall i | 0 <= i < |page.events|
      ensures StepOk(from, at, page.events, i) <==> (i == 0 ==> at <= page.events[0].at)
    {
      assert StepOk(from, ZERO_TIME, page.events, i);
    }
    if page.events != [] && Accepts(from, at, page.events) {
      assert StepOk(from, at, page.events, 0);
    }
  }

  /** A fetched page of a member is taken if and only if it joins the node's newest
      chain, or its incarnation and journal are new. */
  lemma FetchedTaken(d: Document, node: string, page: Page, at: Time, now: Time)
    requires AllValid(d) && Fetched(d, node, page, at) && now != ZERO_TIME
    ensures Prepare(d, node, page, FetchedCursor(d, node, page), now).Ready? <==> Welcome(d, node, page)
  {
    hide Leads, Prepare, AllValid, Unknown, Fetched, BaselineOk, Addressed, SameBaseline, FetchedCursor;
    var cs, to := ChainsOf(d, node), FetchedCursor(d, node, page);
    var t := |cs| - 1;
    FetchedLeads(d, node, page, at);
    FetchedSchema(d, node, page, at);
    TakenExactly(d, node, page, to, now);
    assert forall i: nat :: Newest(d, node, i) <==> i == t;
    if SameIncarnation(cs, page) {
      var c := ChainAt(d, node, t);
      LeadsLater(page, c.cursor, c.lastAt, to);
      NewestKnown(d, node, page, t);
      assert ResumesAt(c, page, to) <==> Joins(c, page);
    }
  }

  lemma FetchedSchema(d: Document, node: string, page: Page, at: Time)
    requires Fetched(d, node, page, at)
    ensures (Addressed(d, node, page) <==> node in d.members) && (BaselineOk(page) <==> page.incarnation != "")
  {}

  lemma NewestKnown(d: Document, node: string, page: Page, t: nat)
    requires At(d, node, t) && ChainAt(d, node, t).incarnation == page.incarnation
    ensures !Unknown(d, node, page)
  {}

  // ---------------------------------------------------------------------------
  // Captures with working writes

  const Working := Writes(Written, Written, Written)

  /** Where the page goes: the document in memory, rolled over first when the
      page has events and would take it past the target. */
  ghost function Host(cfg: Config, m: Document, next: Document, page: Page): Document {
    if cfg.size(next) > cfg.target && page.events != [] && HasEvents(m) then Rolled(m) else m
  }

  /** The document can be closed. */
  predicate Closes(cfg: Config, disk: Disk, m: Document) {
    Fits(cfg, Rolled(m)) && (m.generation in disk.segments ==> disk.segments[m.generation] == m)
  }

  /** Everything that has to be written for the page can be. */
  ghost predicate Room(cfg: Config, disk: Disk, m: Document, node: string, page: Page, cursor: Cursor, now: Time) {
    var first := Prepare(m, node, page, cursor, now);
    first.Ready? ==>
      var host := Host(cfg, m, first.doc, page);
      && (host != m ==> Closes(cfg, disk, m))
      && var second := Prepare(host, node, page, cursor, now); second.Ready? ==> Fits(cfg, second.doc)
  }

  lemma RotationWorks(cfg: Config, disk: Disk, m: Document)
    ensures var r := Rotation(cfg, disk, m, Written, Written);
            && r.alive && (r.ok <==> (HasEvents(m) ==> Closes(cfg, disk, m)))
            && (r.ok ==> r.doc == if HasEvents(m) then Rolled(m) else m)
            && (r.ok ==> r.disk.segments == if HasEvents(m) then disk.segments[m.generation := m] else disk.segments)
  {
    hide HasEvents, Rolled;
  }

  /** With working writes a capture is acknowledged if and only if the page is
      taken and there is room; the segment it closes, if any, is the document
      before it. */
  lemma CapturedExactly(cfg: Config, disk: Disk, m: Document, node: string, page: Page, cursor: Cursor, now: Time)
    requires AllValid(m)
    ensures var r, first := Capturing(cfg, disk, m, node, page, cursor, now, Working),
                            Prepare(m, node, page, cursor, now);
            && (r.ok <==> first.Ready? && Room(cfg, disk, m, node, page, cursor, now))
            && (r.ok ==> Hosted(cfg, disk, m, Host(cfg, m, first.doc, page), node, page, cursor, now, r))
  {
    hide Prepare, HasEvents, AllValid, Rolled, Rotation, Fits, Closes;
    RolloverKeepsVerdict(m, node, page, cursor, now);
    RolledOther(m);
    RotationWorks(cfg, disk, m);
  }

  /** The page was added to `host` and everything written. */
  ghost predicate Hosted(cfg: Config, disk: Disk, m: Document, host: Document, node: string, page: Page, cursor: Cursor,
                         now: Time, r: Ended)
  {
    && Prepare(host, node, page, cursor, now) == Ready(r.doc) && r.disk.manifest == Some(r.doc)
    && r.disk.segments == if host == m then disk.segments else disk.segments[m.generation := m]
  }

  lemma RolledOther(m: Document)
    ensures Rolled(m) != m
  {}

  /** A page that leaves the document within the target, or brings no events,
      closes no segment, whatever the writes do. */
  lemma SmallPageClosesNothing(cfg: Config, s: System, a: Action)
    requires a.Capture? && s.proc.Some?
    requires var first := Prepare(s.proc.value, a.node, a.page, a.cursor, a.now);
             first.Ready? ==> cfg.size(first.doc) <= cfg.target || a.page.events == []
    ensures var t := Next(cfg, s, a);
            && t.disk.segments == s.disk.segments
            && (t.proc.Some? ==> t.proc.value.generation == s.proc.value.generation)
  {
    hide Prepare;
    if Prepare(s.proc.value, a.node, a.page, a.cursor, a.now).Ready? {
      PreparedGeneration(s.proc.value, a.node, a.page, a.cursor, a.now);
    }
  }

  lemma ServedValid(cfg: Config, s: System, actions: seq<Action>)
    requires Initial(s) && After(cfg, s, actions).proc.Some?
    ensures AllValid(After(cfg, s, actions).proc.value)
  {
    RunClimbs(cfg, s, actions);
    RunServesNew(cfg, s, actions);
    hide After, ValidChain;
    var d := After(cfg, s, actions).proc.value;
    assert Climbing(d);
    forall n, i | At(d, n, i) ensures ValidChain(ChainAt(d, n, i)) {
      assert ChainClimbs(ChainAt(d, n, i));
    }
  }

  /** In every run: a page fetched from where the process stands is acknowledged,
      with working writes, if and only if it is welcome and there is room. */
  lemma AcknowledgedExactly(cfg: Config, s: System, actions: seq<Action>, a: Action, at: Time)
    requires Initial(s) && After(cfg, s, actions).proc.Some?
    requires a.Capture? && a.w == Working && a.now != ZERO_TIME
    requires var m := After(cfg, s, actions).proc.value;
             Fetched(m, a.node, a.page, at) && a.cursor == FetchedCursor(m, a.node, a.page)
    ensures var t := After(cfg, s, actions);
            Acked(cfg, t, a) <==>
            Welcome(t.proc.value, a.node, a.page)
            && Room(cfg, t.disk, t.proc.value, a.node, a.page, a.cursor, a.now)
  {
    ServedValid(cfg, s, actions);
    hide After, AllValid, Prepare, Fetched, Welcome, FetchedCursor, Capturing, Room;
    var t := After(cfg, s, actions);
    FetchedTaken(t.proc.value, a.node, a.page, at, a.now);
    CapturedExactly(cfg, t.disk, t.proc.value, a.node, a.page, a.cursor, a.now);
  }
}
