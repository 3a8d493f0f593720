/** Verifying a frozen copy of the collector without repairing it, and the
    event roots it reports (cmd/halro-ha-health/durable_snapshot.go). */
module DurableSnapshot {
  import opened Basics
  import opened Transitions
  import opened DurableDocument
  import opened DurableSoundness
  import opened DurableVerifier
  import opened DurableArchive

  datatype Coverage = CaughtUp | CatchingUp

  datatype SnapshotChain = SnapshotChain(nodeId: string, incarnation: string, baselineKind: BaselineKind,
                                         journalId: string, baselineDigest: string, storedSequence: U64,
                                         committed: U64, storedDigest: string, headDigest: string,
                                         eventsRoot: string, observedAt: Time, coverage: Coverage)

  datatype SnapshotReport = SnapshotReport(cluster: string, members: seq<string>, closedSegments: nat,
                                           chains: seq<SnapshotChain>, handoffs: seq<Handoff>,
                                           notStarted: seq<string>)

  predicate MembersOk(members: seq<string>) {
    && 2 <= |members| <= 3
    && (forall i :: 0 <= i < |members| ==> members[i] != "")
    && (forall i :: 0 < i < |members| ==> members[i] != members[i - 1])
  }

  function Entry(node: string, c: Chain, root: string): SnapshotChain {
    SnapshotChain(node, c.incarnation, c.baselineKind, c.cursor.journalId, c.cursor.baselineDigest, c.cursor.sequence,
                  c.committed, c.cursor.digest, c.headDigest, root, c.observedAt,
                  if c.cursor.sequence < c.committed then CatchingUp else CaughtUp)
  }

  /** The reported chains of one member, and of several. */
  ghost function NodeEntries(h: Hash, docs: seq<Document>, d: Document, node: string): seq<SnapshotChain> {
    seq(|ChainsOf(d, node)|, i requires 0 <= i < |ChainsOf(d, node)| =>
      Entry(node, ChainsOf(d, node)[i], h(History(docs, ChainsOf(d, node)[i].cursor.journalId))))
  }

  ghost function Entries(h: Hash, docs: seq<Document>, d: Document, members: seq<string>): seq<SnapshotChain> {
    if members == [] then []
    else Entries(h, docs, d, members[..|members| - 1]) + NodeEntries(h, docs, d, members[|members| - 1])
  }

  ghost function Idle(d: Document, members: seq<string>): seq<string> {
    if members == [] then []
    else Idle(d, members[..|members| - 1]) +
         (if ChainsOf(d, members[|members| - 1]) == [] then [members[|members| - 1]] else [])
  }

  /** What the snapshot report says of accepted documents. */
  ghost function Report(cfg: Config, docs: seq<Document>, d: Document): SnapshotReport {
    SnapshotReport(cfg.id.cluster, cfg.id.members, d.generation,
                   Entries(cfg.hash, docs, d, cfg.id.members), d.handoffs, Idle(d, cfg.id.members))
  }

  /** The report lists exactly the chains of the members, each with the hash of its
      history, and exactly the members without one. */
  lemma {:induction false} ReportExactly(h: Hash, docs: seq<Document>, d: Document, members: seq<string>)
    ensures forall x :: x in Entries(h, docs, d, members) <==>
                        exists n, i :: n in members && At(d, n, i) && x == EntryAt(h, docs, d, n, i)
    ensures forall n :: n in Idle(d, members) <==> n in members && !At(d, n, 0)
  {
    hide EntryAt;
    if members != [] {
      var last := |members| - 1;
      var rest, node := members[..last], members[last];
      ReportExactly(h, docs, d, rest);
      NodeExactly(h, docs, d, node);
      assert members == rest + [node];
      assert Entries(h, docs, d, members) == Entries(h, docs, d, rest) + NodeEntries(h, docs, d, node);
      assert At(d, node, 0) <==> ChainsOf(d, node) != [];
    }
  }

  ghost function EntryAt(h: Hash, docs: seq<Document>, d: Document, n: string, i: int): SnapshotChain
    requires At(d, n, i)
  {
    Entry(n, ChainAt(d, n, i), h(History(docs, JournalAt(d, n, i))))
  }

  lemma NodeExactly(h: Hash, docs: seq<Document>, d: Document, node: string)
    ensures forall x :: x in NodeEntries(h, docs, d, node) <==>
                        exists i :: At(d, node, i) && x == EntryAt(h, docs, d, node, i)
  {
    var es := NodeEntries(h, docs, d, node);
    forall i | At(d, node, i) ensures EntryAt(h, docs, d, node, i) in es {
      assert es[i] == EntryAt(h, docs, d, node, i);
    }
    forall x | x in es ensures exists i :: At(d, node, i) && x == EntryAt(h, docs, d, node, i) {
      var i :| 0 <= i < |es| && es[i] == x;
      assert At(d, node, i);
    }
  }

  /** appendEvents: the snapshot's own hash states, next to the verifier's. */
  method AppendEvents(roots0: map<string, seq<Event>>, d: Document) returns (roots: map<string, seq<Event>>)
    requires UniqueJournals(d)
    ensures roots.Keys == roots0.Keys + Journals(d)
    ensures forall j :: j in roots ==> roots[j] == RootOf(roots0, j) + EventsIn(d, j)
  {
    hide Hashed, DoneJournals, Journals, EventsIn, Done;
    roots := roots0;
    var todo := d.chains.Keys;
    ghost var f: set<string> := {};
    HashedStart(roots0, d, "");
    while todo != {}
      invariant todo !! f && todo + f == d.chains.Keys
      invariant Hashed(roots0, roots, d, f, "", 0)
      decreases |todo|
    {
      var node :| node in todo;
      HashedSwitch(roots0, roots, d, f, "", node);
      for i := 0 to |d.chains[node]|
        invariant Hashed(roots0, roots, d, f, node, i)
      {
        assert At(d, node, i);
        NotYetDone(d, f, node, i);
        HashedStep(roots0, roots, d, f, node, i);
        var c := d.chains[node][i];
        roots := roots[c.cursor.journalId := RootOf(roots, c.cursor.journalId) + c.events];
      }
      HashedNode(roots0, roots, d, f, node);
      f := f + {node};
      todo := todo - {node};
      HashedSwitch(roots0, roots, d, f, node, "");
    }
    assert f == d.chains.Keys;
    HashedWhole(roots0, roots, d);
  }

  lemma HashedStart(r: map<string, seq<Event>>, d: Document, cur: string)
    ensures Hashed(r, r, d, {}, cur, 0)
  {}

  lemma HashedSwitch(r0: map<string, seq<Event>>, r1: map<string, seq<Event>>, d: Document, f: set<string>, c0: string,
                     c1: string)
    requires Hashed(r0, r1, d, f, c0, 0)
    ensures Hashed(r0, r1, d, f, c1, 0)
  {}

  lemma HashedNode(r0: map<string, seq<Event>>, r1: map<string, seq<Event>>, d: Document, f: set<string>, cur: string)
    requires cur in d.chains && cur !in f && Hashed(r0, r1, d, f, cur, |d.chains[cur]|)
    ensures Hashed(r0, r1, d, f + {cur}, cur, 0)
  {}

  lemma NotYetDone(d: Document, f: set<string>, cur: string, i: nat)
    requires UniqueJournals(d) && At(d, cur, i) && cur !in f
    ensures JournalAt(d, cur, i) !in DoneJournals(d, f, cur, i)
  {
    if JournalAt(d, cur, i) in DoneJournals(d, f, cur, i) {
      var n, k :| n in d.chains && 0 <= k < |d.chains[n]| && (n in f || (n == cur && k < i))
                  && d.chains[n][k].cursor.journalId == JournalAt(d, cur, i);
      assert At(d, n, k);
    }
  }

  lemma HashedWhole(r0: map<string, seq<Event>>, r1: map<string, seq<Event>>, d: Document)
    requires UniqueJournals(d) && Hashed(r0, r1, d, d.chains.Keys, "", 0)
    ensures r1.Keys == r0.Keys + Journals(d)
    ensures forall j :: j in r1 ==> r1[j] == RootOf(r0, j) + EventsIn(d, j)
  {
    DoneAll(d, "");
    forall j | j in r1 ensures r1[j] == RootOf(r0, j) + EventsIn(d, j) {
      if j in Journals(d) {
        var n, k :| n in d.chains && 0 <= k < |d.chains[n]| && d.chains[n][k].cursor.journalId == j;
        assert Done(d, d.chains.Keys, "", 0, n, k);
        EventsAt(d, n, k);
      }
    }
  }

  ghost predicate RootsKept(roots: map<string, seq<Event>>, docs: seq<Document>) {
    (forall j :: j in roots ==> roots[j] == History(docs, j))
    && (forall j :: j in Journals(Previous(docs)) ==> j in roots)
  }

  lemma RootsKeptStep(h: Hash, id: Identity, docs: seq<Document>, d: Document, r0: map<string, seq<Event>>,
                      r1: map<string, seq<Event>>)
    requires Replays(h, id, docs) && RootsKept(r0, docs)
    requires r1.Keys == r0.Keys + Journals(d)
    requires forall j :: j in r1 ==> r1[j] == RootOf(r0, j) + EventsIn(d, j)
    ensures RootsKept(r1, docs + [d])
  {
    ReplayComplete(h, id, docs);
    assert Previous(docs + [d]) == d;
    hide Replays, History, EventsIn, CompleteJournal, Journals;
    forall j | j in r1 ensures r1[j] == History(docs + [d], j) {
      HistorySnoc(docs, d, j);
    }
  }

  /** The first pass: replay and hash every document. */
  method SnapshotRoots(cfg: Config, segments: map<nat, Document>, current: Document)
    returns (ok: bool, roots: map<string, seq<Event>>)
    requires Numbered(segments) && |segments| == current.generation
    ensures ok <==> ReplayOk(cfg, segments, current)
    ensures ok ==> RootsKept(roots, View(segments, current))
  {
    hide Replays, AcceptsNext, RootsKept;
    roots := map[];
    var v := new Verifier(cfg.id, cfg.hash);
    RootsKeptEmpty();
    for g := 0 to current.generation
      invariant v.Valid() && v.id == cfg.id && v.hash == cfg.hash
      invariant forall k: nat :: k < g ==> k in segments && Fits(cfg, segments[k])
      invariant v.docs == SegmentRun(segments, g)
      invariant RootsKept(roots, v.docs)
    {
      if !Fits(cfg, segments[g]) {
        return false, roots;
      }
      ghost var before := v.docs;
      ok := v.Verify(segments[g]);
      if !ok {
        if ReplayOk(cfg, segments, current) {
          ReplayStep(cfg, segments, current, g);
        }
        return;
      }
      roots := AddDocument(cfg, before, segments[g], roots);
      assert SegmentRun(segments, g) + [segments[g]] == SegmentRun(segments, g + 1);
    }
    ReplaysSnoc(cfg.hash, cfg.id, v.docs, current);
    ghost var before := v.docs;
    ok := v.Verify(current);
    if ok {
      roots := AddDocument(cfg, before, current, roots);
    }
  }

  lemma RootsKeptEmpty()
    ensures RootsKept(map[], [])
  {}

  method AddDocument(cfg: Config, ghost docs: seq<Document>, d: Document, roots0: map<string, seq<Event>>)
    returns (roots: map<string, seq<Event>>)
    requires Replays(cfg.hash, cfg.id, docs) && AcceptsNext(cfg.hash, cfg.id, docs, d) && RootsKept(roots0, docs)
    ensures RootsKept(roots, docs + [d])
  {
    hide RootsKept, Replays;
    roots := AppendEvents(roots0, d);
    RootsKeptStep(cfg.hash, cfg.id, docs, d, roots0, roots);
  }

  /** verifyDurableSnapshot on a frozen copy.  Its closing comparison of the
      handoffs with its own event roots needs no clause of its own: it cannot
      fail once the verifier has accepted every document. */
  method VerifySnapshot(cfg: Config, disk: Disk) returns (r: Option<SnapshotReport>)
    ensures r.Some? <==> cfg.id.environment != "" && cfg.id.cluster != "" && MembersOk(cfg.id.members)
                         && disk.manifest.Some? && Fits(cfg, disk.manifest.value)
                         && (disk.manifest.value.version == 2 || disk.manifest.value.version == 3)
                         && Numbered(disk.segments) && |disk.segments| == disk.manifest.value.generation
                         && ReplayOk(cfg, disk.segments, disk.manifest.value)
    ensures r.Some? ==> r.value == Report(cfg, View(disk.segments, disk.manifest.value), disk.manifest.value)
  {
    hide RootsKept, History, Entries, Idle, ReplayOk, Fits;
    if cfg.id.environment == "" || cfg.id.cluster == "" || !MembersOk(cfg.id.members) {
      return None;
    }
    if disk.manifest.None? || !Fits(cfg, disk.manifest.value) {
      return None;
    }
    var current := disk.manifest.value;
    if current.version != 2 && current.version != 3 {
      return None;
    }
    var files := new Files(disk);
    var numbered := files.ListSegments();
    if !numbered || |disk.segments| != current.generation {
      return None;
    }
    var ok, roots := SnapshotRoots(cfg, disk.segments, current);
    if !ok {
      return None;
    }
    ghost var docs := View(disk.segments, current);
    var listed, chains, idle := ListChains(cfg, docs, current, roots);
    RootsAgree(cfg, disk.segments, current);
    var recheck := HandoffsHold(cfg, docs, current, roots);
    r := if listed && recheck then
      Some(SnapshotReport(cfg.id.cluster, cfg.id.members, current.generation, chains, current.handoffs, idle))
    else None;
  }

  lemma RootsAgree(cfg: Config, segments: map<nat, Document>, current: Document)
    requires ReplayOk(cfg, segments, current)
    ensures RootsOk(cfg.hash, View(segments, current), current)
  {
    var view := View(segments, current);
    assert AcceptedAt(cfg.hash, cfg.id, view, current.generation);
    assert view[..current.generation] + [current] == view;
  }

  /** One report entry per stored chain, member by member. */
  method ListChains(cfg: Config, ghost docs: seq<Document>, d: Document, roots: map<string, seq<Event>>)
    returns (listed: bool, chains: seq<SnapshotChain>, idle: seq<string>)
    requires docs != [] && docs[|docs| - 1] == d && RootsKept(roots, docs)
    ensures listed && chains == Entries(cfg.hash, docs, d, cfg.id.members) && idle == Idle(d, cfg.id.members)
  {
    hide History, Journals;
    listed, chains, idle := true, [], [];
    for m := 0 to |cfg.id.members|
      invariant listed && chains == Entries(cfg.hash, docs, d, cfg.id.members[..m])
      invariant idle == Idle(d, cfg.id.members[..m])
    {
      var node := cfg.id.members[m];
      assert cfg.id.members[..m + 1][..m] == cfg.id.members[..m];
      var found, entries := ListNode(cfg, docs, d, roots, node);
      if ChainsOf(d, node) == [] {
        idle := idle + [node];
      }
      listed, chains := listed && found, chains + entries;
    }
    assert cfg.id.members[..|cfg.id.members|] == cfg.id.members;
  }

  method ListNode(cfg: Config, ghost docs: seq<Document>, d: Document, roots: map<string, seq<Event>>, node: string)
    returns (found: bool, entries: seq<SnapshotChain>)
    requires docs != [] && docs[|docs| - 1] == d && RootsKept(roots, docs)
    ensures found && entries == NodeEntries(cfg.hash, docs, d, node)
  {
    found, entries := true, [];
    var cs := ChainsOf(d, node);
    for i := 0 to |cs|
      invariant found && |entries| == i
      invariant forall k :: 0 <= k < i ==> entries[k] == NodeEntries(cfg.hash, docs, d, node)[k]
    {
      var j := cs[i].cursor.journalId;
      JournalsAt(d, node, i);
      found := found && j in roots;
      entries := entries + [Entry(node, cs[i], cfg.hash(RootOf(roots, j)))];
    }
  }

  method HandoffsHold(cfg: Config, ghost docs: seq<Document>, d: Document, roots: map<string, seq<Event>>)
    returns (ok: bool)
    requires docs != [] && docs[|docs| - 1] == d && RootsKept(roots, docs) && RootsOk(cfg.hash, docs, d)
    ensures ok
  {
    ok := true;
    for k := 0 to |d.handoffs|
      invariant ok
    {
      var j := d.handoffs[k].oldJournalId;
      ok := ok && j in roots && cfg.hash(roots[j]) == d.handoffs[k].oldEvents;
    }
  }
}
