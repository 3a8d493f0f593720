/** Directories left by the version without segments: which of them open
    (the version 1 branch of openDurableArchive in
    cmd/halro-ha-health/durable_archive.go). */
module DurableUpgrade {
  import opened Basics
  import opened Transitions
  import opened DurableDocument
  import opened DurableArchive
  import opened DurableRuns
  import opened DurableReopen

  /** A version 1 chain: all events from the baseline to the cursor, no start
      cursor, and no date of the last event. */
  predicate OldChainOk(node: string, c: Chain) {
    && c.nodeId == node && c.incarnation != "" && !c.baselineKind.OtherBaseline?
    && ValidJournalId(c.cursor.journalId) && ValidDigest(c.cursor.baselineDigest)
    && ValidDigest(c.cursor.digest) && ValidDigest(c.headDigest)
    && ValidRole(c.baselineRole) && c.baselineTerm <= c.baselinePromised
    && c.startAt == ZERO_TIME && (c.events == [] ==> c.lastAt == ZERO_TIME)
    && Accepts(Baseline(c), ZERO_TIME, c.events) && EndCursor(Baseline(c), c.events) == c.cursor
    && |c.events| == c.cursor.sequence <= c.committed && c.observedAt != ZERO_TIME
    && (c.cursor.sequence == c.committed ==> c.cursor.digest == c.headDigest)
  }

  /** Every chain is in order, no node repeats an incarnation, no journal is in two
      places. */
  ghost predicate OldDocumentOk(id: Identity, d: Document) {
    && d.handoffs == [] && (forall n :: n in d.chains ==> n in id.members)
    && (forall n, i :: At(d, n, i) ==> OldChainOk(n, ChainAt(d, n, i)) && !Repeated(d.chains[n], i))
    && UniqueJournals(d)
  }

  lemma UpgradedChainExactly(node: string, c: Chain)
    ensures OldChainOk(node, c) <==> c.nodeId == node && ValidChain(UpgradedChain(c))
  {}

  lemma UpgradedRepeated(d: Document, n: string, i: int)
    requires At(d, n, i)
    ensures At(Upgraded(d), n, i) && Repeated(Upgraded(d).chains[n], i) == Repeated(d.chains[n], i)
  {
    UpgradedPositions(d);
    var u := Upgraded(d);
    assert forall k :: 0 <= k <= i ==> u.chains[n][k].incarnation == d.chains[n][k].incarnation;
  }

  lemma NoContinuations(u: Document)
    ensures |Continuations(u)| == 0 <==> forall n, i :: At(u, n, i) ==> !Repeated(u.chains[n], i)
  {
    if Continuations(u) == {} {
      forall n, i | At(u, n, i) ensures !Repeated(u.chains[n], i) {
        var j := u.chains[n][i].cursor.journalId;
        assert j !in Continuations(u);
        assert j !in NodeContinuations(u.chains[n]);
      }
    } else {
      var j :| j in Continuations(u);
      var n :| n in u.chains && j in NodeContinuations(u.chains[n]);
      var i :| 0 <= i < |u.chains[n]| && Repeated(u.chains[n], i) && u.chains[n][i].cursor.journalId == j;
      assert At(u, n, i);
    }
  }

  lemma UpgradedAccepted(h: Hash, id: Identity, d: Document)
    requires d.generation == 0 && d.environment == id.environment && d.cluster == id.cluster && d.members == id.members
    requires d.chainsPresent
    ensures AcceptsNext(h, id, [], Upgraded(d)) <==> OldDocumentOk(id, d)
  {
    var u := Upgraded(d);
    UpgradedPositions(d);
    NoContinuations(u);
    forall n, i | At(d, n, i)
      ensures OldChainOk(n, ChainAt(d, n, i)) <==> ChainAt(u, n, i).nodeId == n && ValidChain(ChainAt(u, n, i))
      ensures Repeated(u.chains[n], i) == Repeated(d.chains[n], i)
    {
      UpgradedChainExactly(n, ChainAt(d, n, i));
      UpgradedRepeated(d, n, i);
    }
    hide ValidChain, OldChainOk, Repeated, Upgraded, UpgradedChain;
    assert UniqueJournals(u) <==> UniqueJournals(d);
  }

  /** A version 1 directory opens if and only if its document is in order, names
      this cluster and fits before and after the upgrade. */
  lemma OldOpensExactly(cfg: Config, disk: Disk)
    requires disk.segments == map[] && disk.manifest.Some?
    requires disk.manifest.value.version == 1 && disk.manifest.value.generation == 0
    ensures var d := disk.manifest.value;
            Opening(cfg, disk, Written, Written).doc.Some? <==>
            IdentityOk(cfg, d) && Fits(cfg, d) && Fits(cfg, Upgraded(d)) && OldDocumentOk(cfg.id, d)
  {
    var d := disk.manifest.value;
    OpensExactly(cfg, disk);
    if IdentityOk(cfg, d) {
      UpgradedAccepted(cfg.hash, cfg.id, d);
      hide AcceptsNext, OldDocumentOk, Upgraded;
      ReplaysSnoc(cfg.hash, cfg.id, [], Upgraded(d));
      assert View(map[], Upgraded(d)) == [] + [Upgraded(d)];
    }
  }
}
