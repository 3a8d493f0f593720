/** When a handoff is committed: the exact condition under which the handed-over
    document replays, and what the stored handoff then says
    (cmd/halro-ha-health/durable_reseed_commit.go). */
module DurableCommit {
  import opened Basics
  import opened Transitions
  import opened DurableDocument
  import opened DurableArchive
  import opened DurableSnapshot
  import opened SnapshotComparison
  import opened DurableHandoff
  import opened DurableRuns

  // ---------------------------------------------------------------------------
  // What the frozen copy says of the retired journal

  /** The retired chain is the node's newest, complete in the collector and
      hashes to the member's own root. */
  ghost predicate RetiredAt(cfg: Config, segments: map<nat, Document>, base: Document, e: Evidence) {
    && LastJournalIs(base, e.retired.nodeId, e.retired.journalId) && Backed(segments, base)
    && var cs := ChainsOf(base, e.retired.nodeId);
    && var c := cs[|cs| - 1];
    && c.incarnation == e.retired.incarnation && c.cursor.sequence == c.committed == e.retired.committed
    && c.cursor.digest == c.headDigest == e.retired.committedDigest
    && cfg.hash(History(View(segments, base), e.retired.journalId)) == e.retired.eventsRoot
  }

  lemma EntryFound(cfg: Config, segments: map<nat, Document>, base: Document, e: Evidence, i: nat)
    requires Backed(segments, base) && UniqueJournals(base)
    requires LastJournalIs(base, e.retired.nodeId, e.retired.journalId)
    requires i < |Entries(cfg.hash, View(segments, base), base, cfg.id.members)|
    requires Agrees(Entries(cfg.hash, View(segments, base), base, cfg.id.members)[i], e.retired)
    ensures RetiredAt(cfg, segments, base, e)
  {
    hide UniqueJournals, History, ValidDigest, Entries;
    var docs, m := View(segments, base), e.retired;
    ReportExactly(cfg.hash, docs, base, cfg.id.members);
    var x := Entries(cfg.hash, docs, base, cfg.id.members)[i];
    assert x in Entries(cfg.hash, docs, base, cfg.id.members);
    var n, k :| n in cfg.id.members && At(base, n, k) && x == EntryAt(cfg.hash, docs, base, n, k);
    var t := |ChainsOf(base, m.nodeId)| - 1;
    assert At(base, m.nodeId, t);
    SamePlace(base, m.nodeId, t, n, k);
  }

  lemma RetiredFound(cfg: Config, frozen: Disk, e: Evidence)
    requires PreflightOk(cfg, frozen, e)
    ensures RetiredAt(cfg, frozen.segments, frozen.manifest.value, e)
  {
    hide ReplayOk, UniqueJournals, ManifestOk, OrderedHandoff, ValidMember, Fits, Numbered, Agrees, RetiredAt, Entries;
    var base, chains := frozen.manifest.value, SnapshotOf(cfg, frozen).chains;
    ReplayUnique(cfg, frozen.segments, base);
    var i :| 0 <= i < |chains| && Agrees(chains[i], e.retired);
    EntryFound(cfg, frozen.segments, base, e, i);
  }

  lemma SamePlace(d: Document, n: string, i: int, m: string, k: int)
    requires UniqueJournals(d) && At(d, n, i) && At(d, m, k) && JournalAt(d, n, i) == JournalAt(d, m, k)
    ensures n == m && i == k
  {}

  lemma ReplayUnique(cfg: Config, segments: map<nat, Document>, d: Document)
    requires ReplayOk(cfg, segments, d)
    ensures UniqueJournals(d) && Backed(segments, d)
  {
    var docs := View(segments, d);
    assert AcceptedAt(cfg.hash, cfg.id, docs, |docs| - 1);
  }

  // ---------------------------------------------------------------------------
  // When the handed-over document replays

  /** What neither the preflight nor the comparison with the replacement's
      baseline has looked at. */
  ghost predicate Committable(base: Document, e: Evidence, member: MemberReport, now: Time) {
    && e.sourceNode != e.retired.nodeId && e.sourceApproval.term > 0
    && ValidJournalId(e.replacement.journalId)
    && (forall n, i :: At(base, n, i) ==> JournalAt(base, n, i) != e.replacement.journalId)
    && ValidDigest(e.replacement.baselineDigest) && ValidDigest(e.replacement.inventory)
    && ValidDigest(e.sourceInventory) && ValidDigest(e.sourceApproval.manifest)
    && ValidDigest(member.committedDigest)
    && (member.committed == 0 ==> member.committedDigest == e.replacement.baselineDigest)
    && now != ZERO_TIME && e.replacementFrozenAt <= now
  }

  ghost predicate Accepted(cfg: Config, segments: map<nat, Document>, d: Document) {
    Backed(segments, d) && AcceptsNext(cfg.hash, cfg.id, SegmentRun(segments, d.generation), d)
  }

  /** The setting of a commit on an archive equal to its frozen copy. */
  ghost predicate Ready(cfg: Config, frozen: Disk, base: Document, e: Evidence, member: MemberReport, page: Page) {
    && PreflightOk(cfg, frozen, e) && frozen.manifest == Some(base)
    && BaselineMatches(ProofOf(e), member, page)
  }

  /** The preflight on an equal copy already settles the comparison of heads. */
  lemma HeadMatches(cfg: Config, frozen: Disk, e: Evidence)
    requires PreflightOk(cfg, frozen, e)
    ensures OldHeadMatches(frozen.manifest.value, ProofOf(e))
  {
    RetiredFound(cfg, frozen, e);
  }

  lemma HandoffValid(cfg: Config, frozen: Disk, base: Document, e: Evidence, member: MemberReport, page: Page,
                     now: Time)
    requires Ready(cfg, frozen, base, e, member, page)
    requires Accepted(cfg, frozen.segments, base)
    ensures var d := HandedOver(base, ProofOf(e), member, page, now);
            Committable(base, e, member, now) ==> ValidHandoff(ProofOf(e).(committedAt := now), d)
    ensures var d := HandedOver(base, ProofOf(e), member, page, now);
            ValidHandoff(ProofOf(e).(committedAt := now), d) ==>
              && e.sourceNode != e.retired.nodeId && e.sourceApproval.term > 0
              && ValidJournalId(e.replacement.journalId)
              && ValidDigest(e.replacement.baselineDigest) && ValidDigest(e.replacement.inventory)
              && ValidDigest(e.sourceInventory) && ValidDigest(e.sourceApproval.manifest)
              && now != ZERO_TIME && e.replacementFrozenAt <= now
  {
    RetiredFound(cfg, frozen, e);
    var t := |ChainsOf(base, e.retired.nodeId)| - 1;
    assert At(base, e.retired.nodeId, t) && ChainOk(cfg.id, base, e.retired.nodeId, t);
  }

  lemma NewChainValid(proof: Handoff, member: MemberReport, page: Page, now: Time)
    requires BaselineMatches(proof, member, page)
    ensures ValidChain(NewChain(proof, member, page, now)) <==>
            && proof.incarnation != "" && ValidJournalId(proof.newJournalId) && ValidDigest(proof.newBaselineDigest)
            && ValidDigest(member.committedDigest) && now != ZERO_TIME
            && (member.committed == 0 ==> member.committedDigest == proof.newBaselineDigest)
  {}

  /** What the parts below need of a commit. */
  ghost predicate Fitting(base: Document, proof: Handoff, member: MemberReport, page: Page, now: Time) {
    && UniqueJournals(base) && OldHeadMatches(base, proof) && BaselineMatches(proof, member, page)
    && (forall n, i :: At(base, n, i) ==> JournalAt(base, n, i) != proof.newJournalId)
    && ValidChain(NewChain(proof, member, page, now))
    && var cs := ChainsOf(base, proof.nodeId);
    cs[|cs| - 1].committed == proof.oldCommitted && cs[|cs| - 1].headDigest == proof.oldDigest
  }

  lemma OldRepeated(base: Document, proof: Handoff, member: MemberReport, page: Page, now: Time, n: string, i: int)
    requires At(base, n, i)
    ensures At(HandedOver(base, proof, member, page, now), n, i)
    ensures Repeated(HandedOver(base, proof, member, page, now).chains[n], i) == Repeated(base.chains[n], i)
  {
    HandoffPositions(base, proof, member, page, now);
    var d := HandedOver(base, proof, member, page, now);
    assert forall k :: 0 <= k <= i ==> d.chains[n][k] == base.chains[n][k];
  }

  lemma NewRepeated(base: Document, proof: Handoff, member: MemberReport, page: Page, now: Time)
    requires OldHeadMatches(base, proof)
    ensures var d, t := HandedOver(base, proof, member, page, now), |ChainsOf(base, proof.nodeId)|;
            && At(d, proof.nodeId, t) && Repeated(d.chains[proof.nodeId], t)
            && d.chains[proof.nodeId][t - 1] == ChainsOf(base, proof.nodeId)[t - 1]
  {
    var d, t := HandedOver(base, proof, member, page, now), |ChainsOf(base, proof.nodeId)|;
    assert d.chains[proof.nodeId][t - 1].incarnation == d.chains[proof.nodeId][t].incarnation;
  }

  lemma OldChainOk(id: Identity, base: Document, proof: Handoff, member: MemberReport, page: Page, now: Time,
                   n: string, i: int)
    requires At(base, n, i) && ChainOk(id, base, n, i)
    ensures At(HandedOver(base, proof, member, page, now), n, i)
    ensures ChainOk(id, HandedOver(base, proof, member, page, now), n, i)
  {
    var d := HandedOver(base, proof, member, page, now);
    HandoffPositions(base, proof, member, page, now);
    OldRepeated(base, proof, member, page, now, n, i);
    hide Repeated, ValidChain, HandoffMatches;
    if Repeated(base.chains[n], i) {
      var k :| 0 <= k < |base.handoffs|
               && HandoffMatches(base.handoffs[k], n, base.chains[n][i - 1], base.chains[n][i]);
      assert d.handoffs[k] == base.handoffs[k];
      assert d.chains[n][i - 1] == base.chains[n][i - 1] && d.chains[n][i] == base.chains[n][i];
    }
  }

  lemma NewChainOk(id: Identity, base: Document, proof: Handoff, member: MemberReport, page: Page, now: Time)
    requires Fitting(base, proof, member, page, now)
    ensures var d, t := HandedOver(base, proof, member, page, now), |ChainsOf(base, proof.nodeId)|;
            At(d, proof.nodeId, t) && ChainOk(id, d, proof.nodeId, t)
  {
    var d, t := HandedOver(base, proof, member, page, now), |ChainsOf(base, proof.nodeId)|;
    NewRepeated(base, proof, member, page, now);
    var k := |base.handoffs|;
    assert d.handoffs[k] == proof.(committedAt := now);
    assert HandoffMatches(d.handoffs[k], proof.nodeId, d.chains[proof.nodeId][t - 1], d.chains[proof.nodeId][t]);
  }

  lemma HandedChains(id: Identity, base: Document, proof: Handoff, member: MemberReport, page: Page, now: Time)
    requires ChainsOk(id, base) && Fitting(base, proof, member, page, now)
    ensures ChainsOk(id, HandedOver(base, proof, member, page, now))
  {
    var d, t := HandedOver(base, proof, member, page, now), |ChainsOf(base, proof.nodeId)|;
    HandoffPositions(base, proof, member, page, now);
    NewChainOk(id, base, proof, member, page, now);
    assert At(base, proof.nodeId, t - 1);
    hide HandedOver, ChainOk, ValidChain;
    forall n, i | At(d, n, i) ensures ChainOk(id, d, n, i) {
      if At(base, n, i) {
        OldChainOk(id, base, proof, member, page, now, n, i);
      }
    }
    forall n | n in d.chains ensures n in id.members {
      HandedNode(base, proof, member, page, now, n);
    }
  }

  lemma HandedNode(base: Document, proof: Handoff, member: MemberReport, page: Page, now: Time, n: string)
    requires OldHeadMatches(base, proof) && n in HandedOver(base, proof, member, page, now).chains
    ensures n in base.chains
  {}

  lemma HandedContinuations(base: Document, proof: Handoff, member: MemberReport, page: Page, now: Time)
    requires Fitting(base, proof, member, page, now)
    ensures var d := HandedOver(base, proof, member, page, now);
            |Continuations(d)| == |Continuations(base)| + 1
  {
    var d, t := HandedOver(base, proof, member, page, now), |ChainsOf(base, proof.nodeId)|;
    var j, node := proof.newJournalId, proof.nodeId;
    HandoffPositions(base, proof, member, page, now);
    NewRepeated(base, proof, member, page, now);
    hide HandedOver, Repeated;
    forall x | x in Continuations(base) ensures x in Continuations(d) && x != j {
      var n :| n in base.chains && x in NodeContinuations(base.chains[n]);
      var i :| 0 <= i < |base.chains[n]| && Repeated(base.chains[n], i) && base.chains[n][i].cursor.journalId == x;
      OldRepeated(base, proof, member, page, now, n, i);
      assert At(base, n, i) && ChainAt(d, n, i) == ChainAt(base, n, i);
      assert x in NodeContinuations(d.chains[n]);
    }
    forall x | x in Continuations(d) ensures x in Continuations(base) + {j} {
      var n :| n in d.chains && x in NodeContinuations(d.chains[n]);
      var i :| 0 <= i < |d.chains[n]| && Repeated(d.chains[n], i) && d.chains[n][i].cursor.journalId == x;
      assert At(d, n, i);
      if At(base, n, i) {
        OldRepeated(base, proof, member, page, now, n, i);
        assert x in NodeContinuations(base.chains[n]);
      }
    }
    assert j in NodeContinuations(d.chains[node]);
    assert Continuations(d) == Continuations(base) + {j};
  }

  lemma HandedLinked(p: Document, base: Document, proof: Handoff, member: MemberReport, page: Page, now: Time)
    requires Fitting(base, proof, member, page, now) && Linked(p, base) && OrdersKept(p, base)
    requires Journals(p) <= Journals(base)
    ensures var d := HandedOver(base, proof, member, page, now);
            Linked(p, d) && OrdersKept(p, d) && Journals(p) <= Journals(d)
  {
    var d, t := HandedOver(base, proof, member, page, now), |ChainsOf(base, proof.nodeId)|;
    HandoffPositions(base, proof, member, page, now);
    assert OrdersKept(p, d);
    hide HandedOver, OldHeadMatches, OrdersKept;
    forall j | j in Journals(base) ensures j in Journals(d) {
      var n, i :| n in base.chains && 0 <= i < |base.chains[n]| && base.chains[n][i].cursor.journalId == j;
      assert At(base, n, i) && At(d, n, i);
      JournalsAt(d, n, i);
    }
    forall m, k | At(p, m, k) ensures JournalAt(p, m, k) != proof.newJournalId {
      JournalsAt(p, m, k);
      var n, i :| n in base.chains && 0 <= i < |base.chains[n]|
                  && base.chains[n][i].cursor.journalId == JournalAt(p, m, k);
      assert At(base, n, i);
    }
  }

  lemma HandedRoots(h: Hash, prefix: seq<Document>, base: Document, proof: Handoff, member: MemberReport, page: Page,
                    now: Time)
    requires Fitting(base, proof, member, page, now) && UniqueJournals(HandedOver(base, proof, member, page, now))
    requires RootsOk(h, prefix + [base], base) && h(History(prefix + [base], proof.oldJournalId)) == proof.oldEvents
    ensures var d := HandedOver(base, proof, member, page, now); RootsOk(h, prefix + [d], d)
  {
    var d := HandedOver(base, proof, member, page, now);
    var t := |ChainsOf(base, proof.nodeId)| - 1;
    HandoffPositions(base, proof, member, page, now);
    assert At(base, proof.nodeId, t) && JournalAt(base, proof.nodeId, t) == proof.oldJournalId;
    JournalsAt(base, proof.nodeId, t);
    forall j | j in Journals(base) ensures j in Journals(d) {
      var n, i :| n in base.chains && 0 <= i < |base.chains[n]| && base.chains[n][i].cursor.journalId == j;
      assert At(base, n, i) && At(d, n, i);
      JournalsAt(d, n, i);
    }
    forall k | 0 <= k < |d.handoffs|
      ensures d.handoffs[k].oldJournalId in Journals(d)
      ensures h(History(prefix + [d], d.handoffs[k].oldJournalId)) == d.handoffs[k].oldEvents
    {
      var j := d.handoffs[k].oldJournalId;
      HandoffKeepsEvents(base, proof, member, page, now, j);
      assert d.handoffs[k] == if k < |base.handoffs| then base.handoffs[k] else proof.(committedAt := now);
    }
  }

  // ---------------------------------------------------------------------------
  // Together

  lemma CommittableFits(cfg: Config, frozen: Disk, base: Document, e: Evidence, member: MemberReport, page: Page,
                        now: Time)
    requires Ready(cfg, frozen, base, e, member, page) && Accepted(cfg, frozen.segments, base)
    requires Committable(base, e, member, now)
    ensures Fitting(base, ProofOf(e), member, page, now)
  {
    RetiredFound(cfg, frozen, e);
    NewChainValid(ProofOf(e), member, page, now);
  }

  lemma CommittableAccepted(cfg: Config, frozen: Disk, base: Document, e: Evidence, member: MemberReport, page: Page,
                            now: Time)
    requires Ready(cfg, frozen, base, e, member, page) && Accepted(cfg, frozen.segments, base)
    requires Committable(base, e, member, now)
    ensures Accepted(cfg, frozen.segments, HandedOver(base, ProofOf(e), member, page, now))
  {
    CommittableFits(cfg, frozen, base, e, member, page, now);
    HandoffValid(cfg, frozen, base, e, member, page, now);
    RetiredFound(cfg, frozen, e);
    var proof, prefix := ProofOf(e), SegmentRun(frozen.segments, base.generation);
    var d := HandedOver(base, proof, member, page, now);
    assert prefix + [base] == View(frozen.segments, base);
    HandedHeader(cfg.id, prefix, base, proof, member, page, now);
    hide ValidHandoff, Ready, Committable, Fitting, ChainsOk, Linked, OrdersKept, RootsOk, Continuations, Journals,
      HandedOver, RetiredAt, HeaderOk, HandoffListOk, OldHeadMatches, UniqueJournals;
    HandedChains(cfg.id, base, proof, member, page, now);
    HandedContinuations(base, proof, member, page, now);
    HandedLinked(Previous(prefix), base, proof, member, page, now);
    ChainsUnique(cfg.id, d);
    HandedRoots(cfg.hash, prefix, base, proof, member, page, now);
  }

  lemma ChainsUnique(id: Identity, d: Document)
    requires ChainsOk(id, d)
    ensures UniqueJournals(d)
  {}

  lemma HandedHeader(id: Identity, prefix: seq<Document>, base: Document, proof: Handoff, member: MemberReport,
                     page: Page, now: Time)
    requires HeaderOk(id, prefix, base) && HandoffListOk(Previous(prefix), base)
    requires ValidHandoff(proof.(committedAt := now), HandedOver(base, proof, member, page, now))
    ensures var d := HandedOver(base, proof, member, page, now);
            && HeaderOk(id, prefix, d) && HandoffListOk(Previous(prefix), d)
            && |d.handoffs| == |base.handoffs| + 1 && d.generation == base.generation
  {}

  lemma AcceptedCommittable(cfg: Config, frozen: Disk, base: Document, e: Evidence, member: MemberReport, page: Page,
                            now: Time)
    requires Ready(cfg, frozen, base, e, member, page) && Accepted(cfg, frozen.segments, base)
    requires Accepted(cfg, frozen.segments, HandedOver(base, ProofOf(e), member, page, now))
    ensures Committable(base, e, member, now)
  {
    var proof, prefix := ProofOf(e), SegmentRun(frozen.segments, base.generation);
    var d, t := HandedOver(base, proof, member, page, now), |ChainsOf(base, proof.nodeId)|;
    HandoffValid(cfg, frozen, base, e, member, page, now);
    HandoffPositions(base, proof, member, page, now);
    NewChainValid(proof, member, page, now);
    assert d.handoffs[|base.handoffs|] == proof.(committedAt := now);
    assert |Previous(prefix).handoffs| <= |base.handoffs|;
    assert ValidHandoff(proof.(committedAt := now), d);
    assert ChainOk(cfg.id, d, proof.nodeId, t);
    hide HandedOver, ValidHandoff, ValidChain, HandoffListOk, Linked, RootsOk, OrdersKept, ContinuationOk;
    forall n, i | At(base, n, i) ensures JournalAt(base, n, i) != proof.newJournalId {
      assert At(d, n, i) && JournalAt(d, n, i) == JournalAt(base, n, i);
      assert JournalAt(d, proof.nodeId, t) == proof.newJournalId;
    }
  }

  lemma ReplayAccepted(cfg: Config, segments: map<nat, Document>, base: Document, d: Document)
    requires ReplayOk(cfg, segments, base) && d.generation == base.generation
    ensures Accepted(cfg, segments, base) && (ReplayOk(cfg, segments, d) <==> Accepted(cfg, segments, d))
  {
    var run := SegmentRun(segments, base.generation);
    hide AcceptsNext, Replays;
    ReplaysSnoc(cfg.hash, cfg.id, run, base);
    ReplaysSnoc(cfg.hash, cfg.id, run, d);
  }

  /** On an archive equal to its frozen copy, a preflighted handoff whose new
      baseline matches is committed if and only if it is committable and fits. */
  lemma CommitExactly(cfg: Config, frozen: Disk, base: Document, e: Evidence, member: MemberReport, page: Page,
                      now: Time)
    requires Ready(cfg, frozen, base, e, member, page)
    ensures CommitOk(cfg, frozen, base, frozen, e, member, page, now) <==>
            Committable(base, e, member, now) && Fits(cfg, HandedOver(base, ProofOf(e), member, page, now))
  {
    HeadMatches(cfg, frozen, e);
    var d := HandedOver(base, ProofOf(e), member, page, now);
    assert ReplayOk(cfg, frozen.segments, base) && d.generation == base.generation;
    hide ReplayOk, Accepted, Committable, HandedOver, PreflightOk, BaselineMatches, OldHeadMatches, Fits;
    ReplayAccepted(cfg, frozen.segments, base, d);
    if Committable(base, e, member, now) {
      CommittableAccepted(cfg, frozen, base, e, member, page, now);
    }
    if Accepted(cfg, frozen.segments, d) {
      AcceptedCommittable(cfg, frozen, base, e, member, page, now);
    }
  }

  // ---------------------------------------------------------------------------
  // In a run

  /** What an open serves is what it leaves stored. */
  lemma OpenedStored(cfg: Config, disk: Disk, up: Outcome, rec: Outcome)
    requires var o := Opening(cfg, disk, up, rec); o.doc.Some? && o.disk.manifest.Some?
    ensures var o := Opening(cfg, disk, up, rec); o.disk.manifest == o.doc
  {
    hide ReplayOk, Fits, IdentityOk, Numbered, Upgraded, Rolled;
  }

  /** The step that hands over writes the new manifest if and only if the handoff
      is committable and fits. */
  lemma HandOverExactly(cfg: Config, s: System, a: Action)
    requires a.HandOver? && s.proc.None?
    requires var o := Opening(cfg, s.disk, a.up, a.rec); o.doc.Some? && o.disk == a.frozen
    requires PreflightOk(cfg, a.frozen, a.e) && BaselineMatches(ProofOf(a.e), a.member, a.baseline)
    ensures var base := a.frozen.manifest.value;
            var next := HandedOver(base, ProofOf(a.e), a.member, a.baseline, a.at);
            Next(cfg, s, a).disk ==
            if Committable(base, a.e, a.member, a.at) && Fits(cfg, next) then PutManifest(a.frozen, next, a.wMan)
            else a.frozen
  {
    OpenedStored(cfg, s.disk, a.up, a.rec);
    hide Opening, PreflightOk, BaselineMatches, Committable, Fits, HandedOver, CommitOk;
    CommitExactly(cfg, a.frozen, a.frozen.manifest.value, a.e, a.member, a.baseline, a.at);
  }

  /** The record names both ends of the handoff, who seeded it with what, and when
      each copy was frozen. */
  predicate Records(h: Handoff, e: Evidence, at: Time) {
    && OldKey(h) == ReportKeyOf(e.retired) && NewKey(h) == ReportKeyOf(e.replacement)
    && h.oldCommitted == e.retired.committed && h.oldDigest == e.retired.committedDigest
    && EndsMatch(h, e.retired, e.replacement)
    && h.sourceNode == e.sourceNode && h.sourceInventory == e.sourceInventory
    && h.seedManifest == e.sourceApproval.manifest && h.seedTerm == e.sourceApproval.term
    && h.seedIndex == e.sourceApproval.index && h.fencingEvidence == e.fencing
    && h.retiredFrozenAt == e.retiredFrozenAt && h.sourceFrozenAt == e.sourceFrozenAt
    && h.replacementFrozenAt == e.replacementFrozenAt && h.committedAt == at
  }

  /** A committed handoff is one a later comparison with the two members' own
      reports accepts, and it keeps the evidence. */
  lemma CommitRecords(cfg: Config, disk: Disk, base: Document, e: Evidence, member: MemberReport, page: Page, now: Time)
    requires CommitOk(cfg, disk, base, disk, e, member, page, now)
    ensures var hs := HandedOver(base, ProofOf(e), member, page, now).handoffs;
            && hs != [] && hs[..|hs| - 1] == base.handoffs && Records(hs[|hs| - 1], e, now)
            && HandoffMatched(hs[|hs| - 1], [e.retired, e.replacement])
  {
    var hs := HandedOver(base, ProofOf(e), member, page, now).handoffs;
    var h, ms := hs[|hs| - 1], [e.retired, e.replacement];
    assert ReportKeyOf(ms[0]) == OldKey(h) && ReportKeyOf(ms[1]) == NewKey(h) && EndsMatch(h, ms[0], ms[1]);
  }
}
