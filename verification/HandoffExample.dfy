/** A run that commits a handoff: the collector stores one page, is stopped, and
    its member is reseeded into a new journal. */
module HandoffExample {
  import opened Basics
  import opened Transitions
  import opened DurableDocument
  import opened DurableArchive
  import opened DurableSnapshot
  import opened SnapshotComparison
  import opened DurableHandoff
  import opened DurableRuns
  import opened DurableCommit
  import opened DurableExample

  const FRESH: string := Repeat('2', 32)

  /** The retired member's report; `root` is the hash of its one event. */
  function OldMember(root: string): MemberReport {
    MemberReport(true, true, "c1", "a", "i", JournalOf("a"), InitialState, DIGEST, 1, DIGEST, root, DIGEST)
  }

  const NewMember := MemberReport(true, true, "c1", "a", "i", FRESH, LegacyBaseline, DIGEST, 0, DIGEST, DIGEST, DIGEST)

  const Approved := Approval("b", "a", 1, 7, DIGEST, 15)

  /** The retired copy is frozen at 20, the replacement's at 30. */
  function Reseeded(root: string): Evidence {
    Evidence(OldMember(root), "old", 20, "b", DIGEST, Approved, "source", 20, NewMember, Approved, "new", 30, DIGEST)
  }

  const Baseline1 := Page(1, "c1", "i", "a", LegacyBaseline, DIGEST, Replica, 1, 1, 0, DIGEST, [], FRESH, 0, DIGEST,
                          false)

  /** The commit, dated 40, on the stopped archive. */
  function Reseeding(root: string): Action {
    HandOver(Written, Written, Stored1.disk, Reseeded(root), NewMember, Baseline1, 40, Written)
  }

  lemma OneHistory(docs: seq<Document>)
    requires docs == [One]
    ensures History(docs, JournalOf("a")) == [Promised(1)]
  {
    assert At(One, "a", 0) && JournalAt(One, "a", 0) == JournalOf("a") && UniqueJournals(One);
    EventsAt(One, "a", 0);
    assert docs[..0] == [] && History([], JournalOf("a")) == [];
  }

  lemma OneEntry(h: Hash)
    ensures Entries(h, [One], One, ["a", "b"]) == [Entry("a", ChainAt(One, "a", 0), h([Promised(1)]))]
  {
    OneHistory([One]);
    var ms := ["a", "b"];
    assert ms[..1] == ["a"] && ["a"][..0] == [];
    assert NodeEntries(h, [One], One, "b") == [];
    assert NodeEntries(h, [One], One, "a") == [Entry("a", ChainAt(One, "a", 0), h([Promised(1)]))];
    assert Entries(h, [One], One, []) == [];
  }

  lemma Preflighted(h: Hash)
    requires ValidDigest(h([Promised(1)]))
    ensures PreflightOk(Setting(h), Stored1.disk, Reseeded(h([Promised(1)])))
  {
    var cfg, e := Setting(h), Reseeded(h([Promised(1)]));
    FirstServing(h);
    assert SnapshotOk(cfg, Stored1.disk) by {
      assert cfg.id.members[0] == "a" && cfg.id.members[1] == "b";
    }
    var docs := View(Stored1.disk.segments, One);
    assert docs == [One];
    OneEntry(h);
    var report := SnapshotOf(cfg, Stored1.disk);
    assert Agrees(report.chains[0], e.retired);
    assert JournalOf("a")[0] == '0' && FRESH[0] == '2';
    assert cfg.id.members[0] == "a" && cfg.id.members[1] == "b";
  }

  lemma Reopened(h: Hash)
    ensures Opening(Setting(h), Stored1.disk, Written, Written) == Opened(Stored1.disk, Some(One))
  {
    FirstServing(h);
    hide ReplayOk;
  }

  lemma Stopped(h: Hash, a: Action)
    ensures After(Setting(h), Start, [DurableExample.Opened, First, Kill, a])
         == Next(Setting(h), System(Stored1.disk, None), a)
  {
    AfterTwo(h, Kill, a);
  }

  /** Whatever the hash, the run ends with the handoff in the manifest, and the
      archive opens. */
  lemma HandoffCommitted(h: Hash)
    requires ValidDigest(h([Promised(1)]))
    ensures var a := Reseeding(h([Promised(1)]));
            var disk := After(Setting(h), Start, [DurableExample.Opened, First, Kill, a]).disk;
            && disk == Disk(Some(HandedOver(One, ProofOf(a.e), NewMember, Baseline1, 40)), map[])
            && Opening(Setting(h), disk, Written, Written).doc == disk.manifest
            && |disk.manifest.value.handoffs| == 1 && |disk.manifest.value.chains["a"]| == 2
  {
    var cfg, a := Setting(h), Reseeding(h([Promised(1)]));
    Stopped(h, a);
    Reopened(h);
    Preflighted(h);
    assert BaselineMatches(ProofOf(a.e), NewMember, Baseline1);
    assert Committable(One, a.e, NewMember, 40) by {
      assert FRESH[0] == '2' && JournalOf("a")[0] == '0';
    }
    var next := HandedOver(One, ProofOf(a.e), NewMember, Baseline1, 40);
    assert |next.handoffs| == 1 && |next.chains["a"]| == 2 && next.generation == 0;
    hide After, Committable, BaselineMatches, PreflightOk, One, HandedOver;
    HandOverExactly(cfg, System(Stored1.disk, None), a);
    CommitExactly(cfg, Stored1.disk, One, a.e, NewMember, Baseline1, 40);
    HandedIdentity(cfg, next);
  }

  lemma HandedIdentity(cfg: Config, d: Document)
    requires ReplayOk(cfg, map[], d) && d.generation == 0 && Fits(cfg, d)
    ensures Opening(cfg, Disk(Some(d), map[]), Written, Written) == Opened(Disk(Some(d), map[]), Some(d))
  {
    var view := View(map[], d);
    assert AcceptedAt(cfg.hash, cfg.id, view, 0);
  }
}
