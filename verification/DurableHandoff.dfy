/** Handing a member's incarnation over to a fresh journal: the preflight that
    checks the frozen evidence and the commit that writes it
    (cmd/halro-ha-health/reseed_handoff_preflight.go, durable_reseed_commit.go). */
module DurableHandoff {
  import opened Basics
  import opened Transitions
  import opened DurableDocument
  import opened DurableSoundness
  import opened DurableArchive
  import opened DurableSnapshot
  import opened SnapshotComparison

  datatype Approval = Approval(sourceNode: string, targetNode: string, term: U64, index: U64, manifest: string,
                               approvedAt: Time)

  /** The operator's manifest together with the authenticated reports it leads
      to: the retired member, the stopped source and the reseeded replacement. */
  datatype Evidence = Evidence(retired: MemberReport, retiredDir: string, retiredFrozenAt: Time,
                               sourceNode: string, sourceInventory: string, sourceApproval: Approval,
                               sourceDir: string, sourceFrozenAt: Time,
                               replacement: MemberReport, replacementApproval: Approval,
                               replacementDir: string, replacementFrozenAt: Time, fencing: string)

  predicate ManifestOk(id: Identity, e: Evidence) {
    && id.environment != "" && id.cluster != "" && MembersOk(id.members)
    && e.retiredFrozenAt != ZERO_TIME && e.sourceFrozenAt != ZERO_TIME && e.replacementFrozenAt != ZERO_TIME
    && ValidDigest(e.fencing) && e.retiredDir != e.replacementDir && e.sourceDir != e.replacementDir
  }

  predicate LastJournalIs(d: Document, node: string, journal: string) {
    var cs := ChainsOf(d, node);
    cs != [] && cs[|cs| - 1].cursor.journalId == journal
  }

  predicate OrderedHandoff(id: Identity, d: Document, e: Evidence)
    requires LastJournalIs(d, e.retired.nodeId, e.retired.journalId)
  {
    var cs := ChainsOf(d, e.retired.nodeId);
    && e.sourceApproval == e.replacementApproval
    && e.retired.clusterId == id.cluster && e.retired.nodeId == e.replacement.nodeId
    && e.retired.incarnation == e.replacement.incarnation && e.retired.journalId != e.replacement.journalId
    && e.sourceNode == e.sourceApproval.sourceNode && e.sourceApproval.targetNode == e.retired.nodeId
    && e.retired.nodeId in id.members && e.sourceNode in id.members
    && e.retiredFrozenAt <= e.replacementFrozenAt && e.sourceFrozenAt <= e.replacementFrozenAt
    && e.sourceApproval.approvedAt <= e.replacementFrozenAt
    && cs[|cs| - 1].cursor.promised <= e.sourceApproval.term
  }

  /** The frozen copy passes snapshot verification. */
  ghost predicate SnapshotOk(cfg: Config, disk: Disk) {
    && cfg.id.environment != "" && cfg.id.cluster != "" && MembersOk(cfg.id.members)
    && disk.manifest.Some? && Fits(cfg, disk.manifest.value)
    && (disk.manifest.value.version == 2 || disk.manifest.value.version == 3)
    && Numbered(disk.segments) && |disk.segments| == disk.manifest.value.generation
    && ReplayOk(cfg, disk.segments, disk.manifest.value)
  }

  ghost function SnapshotOf(cfg: Config, disk: Disk): SnapshotReport
    requires SnapshotOk(cfg, disk)
  {
    Report(cfg, View(disk.segments, disk.manifest.value), disk.manifest.value)
  }

  /** Exactly one collected chain is the retired member's, and it is complete. */
  ghost predicate RetiredComplete(report: SnapshotReport, m: MemberReport) {
    && (exists i :: 0 <= i < |report.chains| && Agrees(report.chains[i], m))
    && (forall i, k :: 0 <= i < k < |report.chains| && ChainKeyOf(report.chains[i]) == ReportKeyOf(m) ==>
                         ChainKeyOf(report.chains[k]) != ReportKeyOf(m))
    && ValidMember(report, m)
  }

  ghost predicate PreflightOk(cfg: Config, frozen: Disk, e: Evidence) {
    && ManifestOk(cfg.id, e) && SnapshotOk(cfg, frozen)
    && RetiredComplete(SnapshotOf(cfg, frozen), e.retired)
    && LastJournalIs(frozen.manifest.value, e.retired.nodeId, e.retired.journalId)
    && OrderedHandoff(cfg.id, frozen.manifest.value, e)
  }

  /** The proof a preflight hands to the commit; the commit dates it. */
  function ProofOf(e: Evidence): Handoff {
    Handoff(e.retired.nodeId, e.retired.incarnation, e.retired.journalId, e.retired.committed,
            e.retired.committedDigest,
            e.retired.eventsRoot, e.retired.inventory, e.replacement.journalId, e.replacement.baselineDigest,
            e.replacement.inventory, e.sourceNode, e.sourceInventory, e.sourceApproval.manifest, e.sourceApproval.term,
            e.sourceApproval.index, e.fencing, e.retiredFrozenAt, e.sourceFrozenAt, e.replacementFrozenAt, ZERO_TIME)
  }

  method FindRetired(report: SnapshotReport, m: MemberReport) returns (ok: bool)
    ensures ok <==> RetiredComplete(report, m)
  {
    var found: Option<nat> := None;
    for i := 0 to |report.chains|
      invariant found.None? ==> forall k :: 0 <= k < i ==> ChainKeyOf(report.chains[k]) != ReportKeyOf(m)
      invariant found.Some? ==> found.value < i && ChainKeyOf(report.chains[found.value]) == ReportKeyOf(m)
      invariant found.Some? ==> forall k :: 0 <= k < i && k != found.value ==>
                                              ChainKeyOf(report.chains[k]) != ReportKeyOf(m)
    {
      if ChainKeyOf(report.chains[i]) == ReportKeyOf(m) {
        if found.Some? {
          assert ChainKeyOf(report.chains[found.value]) == ChainKeyOf(report.chains[i]);
          return false;
        }
        found := Some(i);
      }
    }
    if found.None? || !ValidMember(report, m) {
      return false;
    }
    ok := Agrees(report.chains[found.value], m);
  }

  /** preflightReseedHandoff, on evidence already read. */
  method Preflight(cfg: Config, frozen: Disk, e: Evidence) returns (proof: Option<Handoff>)
    ensures proof.Some? <==> PreflightOk(cfg, frozen, e)
    ensures proof.Some? ==> proof.value == ProofOf(e)
  {
    hide RetiredComplete, ReplayOk, Numbered, Fits, ManifestOk, Report;
    if !ManifestOk(cfg.id, e) {
      return None;
    }
    var report := VerifySnapshot(cfg, frozen);
    if report.None? {
      return None;
    }
    var complete := FindRetired(report.value, e.retired);
    var stored := frozen.manifest.value;
    if !complete || !LastJournalIs(stored, e.retired.nodeId, e.retired.journalId) {
      return None;
    }
    if !OrderedHandoff(cfg.id, stored, e) {
      return None;
    }
    return Some(ProofOf(e));
  }

  // ---------------------------------------------------------------------------
  // Commit

  /** The stopped collector's last chain is the one the proof retires. */
  predicate OldHeadMatches(d: Document, proof: Handoff) {
    var cs := ChainsOf(d, proof.nodeId);
    && cs != []
    && var c := cs[|cs| - 1];
    && c.incarnation == proof.incarnation && c.cursor.journalId == proof.oldJournalId
    && c.cursor.sequence == proof.oldCommitted && c.cursor.digest == proof.oldDigest
  }

  predicate BaselineMatches(proof: Handoff, member: MemberReport, page: Page) {
    && member.inventory == proof.newInventory && member.journalId == proof.newJournalId
    && member.baselineDigest == proof.newBaselineDigest && page.nodeId == proof.nodeId
    && page.incarnation == proof.incarnation && page.baselineKind == LegacyBaseline
    && page.baselineRole == Replica && page.baselineTerm == proof.seedTerm && page.baselinePromised == proof.seedTerm
    && page.nextJournalId == proof.newJournalId && page.committed == member.committed
    && page.headDigest == member.committedDigest
  }

  function NewBaseline(proof: Handoff, page: Page): Cursor {
    Cursor(proof.newJournalId, 0, proof.newBaselineDigest, proof.newBaselineDigest,
           page.baselineRole, page.baselineTerm, page.baselinePromised)
  }

  function NewChain(proof: Handoff, member: MemberReport, page: Page, now: Time): Chain {
    Chain(proof.nodeId, proof.incarnation, page.baselineKind, page.baselineRole, page.baselineTerm,
          page.baselinePromised,
          NewBaseline(proof, page), ZERO_TIME, NewBaseline(proof, page), ZERO_TIME,
          member.committed, member.committedDigest, now, [])
  }

  /** The version 3 document with the handoff and the new baseline in it. */
  function HandedOver(base: Document, proof: Handoff, member: MemberReport, page: Page, now: Time): Document {
    base.(version := 3, chainsPresent := true, handoffs := base.handoffs + [proof.(committedAt := now)],
    chains := base.chains[proof.nodeId := ChainsOf(base, proof.nodeId) + [NewChain(proof, member, page, now)]])
  }

  /** Everything commitReseedHandoff checks before it writes. */
  ghost predicate CommitOk(cfg: Config, disk: Disk, base: Document, frozen: Disk, e: Evidence,
                           member: MemberReport, page: Page, now: Time)
  {
    && PreflightOk(cfg, frozen, e) && disk == frozen
    && OldHeadMatches(base, ProofOf(e)) && BaselineMatches(ProofOf(e), member, page)
    && Fits(cfg, HandedOver(base, ProofOf(e), member, page, now))
    && ReplayOk(cfg, disk.segments, HandedOver(base, ProofOf(e), member, page, now))
  }

  /** commitReseedHandoff on an archive it has just opened. */
  method CommitHandoff(archive: Archive, frozen: Disk, e: Evidence, member: MemberReport, page: Page, now: Time,
                       w: Outcome)
    returns (ok: bool)
    modifies archive.files
    ensures var disk, base := old(archive.files.Contents()), archive.doc;
            var commit := CommitOk(archive.cfg, disk, base, frozen, e, member, page, now);
            && (ok <==> commit && w == Written)
            && archive.files.Contents() ==
               if commit then PutManifest(disk, HandedOver(base, ProofOf(e), member, page, now), w) else disk
  {
    hide PreflightOk, ReplayOk, Fits, HandedOver, OldHeadMatches, BaselineMatches;
    var cfg := archive.cfg;
    var proof := Preflight(cfg, frozen, e);
    if proof.None? {
      return false;
    }
    if archive.files.Contents() != frozen {
      return false;
    }
    if !OldHeadMatches(archive.doc, proof.value) || !BaselineMatches(proof.value, member, page) {
      return false;
    }
    var next := HandedOver(archive.doc, proof.value, member, page, now);
    if !Fits(cfg, next) {
      return false;
    }
    var replayed := ReplayArchive(cfg, archive.files.segments, next);
    if !replayed {
      return false;
    }
    archive.files.PersistManifest(next, w);
    ok := w == Written;
  }

  // ---------------------------------------------------------------------------
  // What a handoff changes

  lemma HandoffPositions(base: Document, proof: Handoff, member: MemberReport, page: Page, now: Time)
    ensures var d, t := HandedOver(base, proof, member, page, now), |ChainsOf(base, proof.nodeId)|;
            && (forall n, i :: At(d, n, i) <==> At(base, n, i) || (n == proof.nodeId && i == t))
            && (forall n, i :: At(base, n, i) ==> ChainAt(d, n, i) == ChainAt(base, n, i))
            && At(d, proof.nodeId, t) && !At(base, proof.nodeId, t)
            && ChainAt(d, proof.nodeId, t) == NewChain(proof, member, page, now)
  {}

  /** A handoff adds an empty journal and leaves every history as it was. */
  lemma HandoffKeepsEvents(base: Document, proof: Handoff, member: MemberReport, page: Page, now: Time, j: string)
    requires UniqueJournals(base) && UniqueJournals(HandedOver(base, proof, member, page, now))
    ensures EventsIn(HandedOver(base, proof, member, page, now), j) == EventsIn(base, j)
  {
    HandoffPositions(base, proof, member, page, now);
    var d, t := HandedOver(base, proof, member, page, now), |ChainsOf(base, proof.nodeId)|;
    if j in Journals(base) {
      var n, i :| n in base.chains && 0 <= i < |base.chains[n]| && base.chains[n][i].cursor.journalId == j;
      assert At(base, n, i) && At(d, n, i);
      EventsAt(base, n, i);
      EventsAt(d, n, i);
    } else if j in Journals(d) {
      var n, i :| n in d.chains && 0 <= i < |d.chains[n]| && d.chains[n][i].cursor.journalId == j;
      assert At(d, n, i);
      EventsAt(d, n, i);
      if At(base, n, i) {
        JournalsAt(base, n, i);
      }
    }
  }

  // ---------------------------------------------------------------------------
  // Terms along the generations of one incarnation

  /** Each continued journal starts at a promised term its predecessor has not
      passed.  The verifier does not check this; the preflight does. */
  ghost predicate SeedsAhead(d: Document) {
    forall n, i :: At(d, n, i) && Repeated(d.chains[n], i) ==>
                     At(d, n, i - 1) && ChainAt(d, n, i - 1).cursor.promised <= ChainAt(d, n, i).baselinePromised
  }

  /** The promised term has not fallen behind the term or the baseline. */
  predicate ChainClimbs(c: Chain) {
    ValidChain(c) && c.cursor.term <= c.cursor.promised && c.baselinePromised <= c.cursor.promised
  }

  /** What terms need to rise along the journals of a document. */
  ghost predicate Climbs(d: Document) {
    && (forall n, i :: At(d, n, i) ==> ChainClimbs(ChainAt(d, n, i)))
    && (forall n, i :: At(d, n, i) && Repeated(d.chains[n], i) ==>
                         At(d, n, i - 1) && ChainAt(d, n, i - 1).incarnation == ChainAt(d, n, i).incarnation)
    && SeedsAhead(d)
  }

  /** Every archive that replays has all of it except what the preflight adds. */
  lemma ReplayClimbs(h: Hash, id: Identity, docs: seq<Document>)
    requires Replays(h, id, docs) && docs != [] && SeedsAhead(Previous(docs))
    ensures Climbs(Previous(docs))
  {
    var d := Previous(docs);
    assert AcceptedAt(h, id, docs, |docs| - 1);
    forall n, i | At(d, n, i) ensures ChainClimbs(ChainAt(d, n, i)) {
      var c := ChainAt(d, n, i);
      var hist := History(docs, c.cursor.journalId);
      ReplayComplete(h, id, docs);
      assert ChainOk(id, d, n, i);
      TermsMonotone(Baseline(c), ZERO_TIME, hist, 0, |hist|);
    }
    forall n, i | At(d, n, i) && Repeated(d.chains[n], i)
      ensures At(d, n, i - 1) && ChainAt(d, n, i - 1).incarnation == ChainAt(d, n, i).incarnation
    {
      assert ChainOk(id, d, n, i);
    }
  }

  /** Along all journals of one node and incarnation the promised term never
      falls: each starts where no earlier one had got past. */
  lemma {:induction false} GenerationsRise(d: Document, n: string, i: nat, k: nat)
    requires Climbs(d) && i < k && At(d, n, k) && ChainAt(d, n, i).incarnation == ChainAt(d, n, k).incarnation
    ensures ChainAt(d, n, i).cursor.promised <= ChainAt(d, n, k).baselinePromised
    decreases k
  {
    hide ValidChain;
    assert Repeated(d.chains[n], k);
    if i < k - 1 {
      GenerationsRise(d, n, i, k - 1);
      assert ChainClimbs(ChainAt(d, n, k - 1));
    }
  }
}
