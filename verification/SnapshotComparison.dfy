/** Comparing a verified collector copy with frozen member reports
    (cmd/halro-ha-health/snapshot_head_comparison.go). */
module SnapshotComparison {
  import opened Basics
  import opened Transitions
  import opened DurableDocument
  import opened DurableSnapshot

  /** A member's own frozen report.  `macVerified` is version 1 with the status
      that says the member's files carried a valid MAC; `inventoryConsistent`
      that its file list hashes to its inventory digest. */
  datatype MemberReport = MemberReport(macVerified: bool, inventoryConsistent: bool, clusterId: string, nodeId: string,
                                       incarnation: string, journalId: string, baselineKind: BaselineKind,
                                       baselineDigest: string, committed: U64, committedDigest: string,
                                       eventsRoot: string, inventory: string)

  datatype ChainKey = ChainKey(nodeId: string, incarnation: string, journalId: string)

  function ChainKeyOf(c: SnapshotChain): ChainKey {
    ChainKey(c.nodeId, c.incarnation, c.journalId)
  }

  function ReportKeyOf(m: MemberReport): ChainKey {
    ChainKey(m.nodeId, m.incarnation, m.journalId)
  }

  predicate ValidMember(collector: SnapshotReport, m: MemberReport) {
    && m.macVerified && m.clusterId == collector.cluster && m.nodeId in collector.members && m.incarnation != ""
    && ValidDigest(m.inventory) && ValidDigest(m.committedDigest) && ValidDigest(m.baselineDigest)
    && ValidDigest(m.eventsRoot) && m.inventoryConsistent
  }

  /** compareOneSnapshotChain succeeds. */
  predicate Agrees(c: SnapshotChain, m: MemberReport) {
    && ChainKeyOf(c) == ReportKeyOf(m) && c.baselineKind == m.baselineKind && c.baselineDigest == m.baselineDigest
    && ValidDigest(c.eventsRoot) && c.eventsRoot == m.eventsRoot
    && c.committed == m.committed && c.headDigest == m.committedDigest
    && c.storedSequence == m.committed && c.storedDigest == m.committedDigest
    && c.coverage == CaughtUp && c.observedAt != ZERO_TIME
  }

  /** What a member that stands where the collector's chain `c` stands reports of it;
      `root` is the hash of its events. */
  function HonestReport(cluster: string, node: string, c: Chain, root: string, inventory: string): MemberReport {
    MemberReport(true, true, cluster, node, c.incarnation, c.cursor.journalId, c.baselineKind, c.cursor.baselineDigest,
                 c.cursor.sequence, c.cursor.digest, root, inventory)
  }

  /** The snapshot entry of a valid chain agrees with such a report if and only if
      the collector has caught up with the head it saw; no other report of the same
      events agrees with it. */
  lemma HonestAgrees(cluster: string, node: string, c: Chain, root: string, inventory: string, m: MemberReport)
    requires ValidChain(c) && ValidDigest(root)
    ensures Agrees(Entry(node, c, root), HonestReport(cluster, node, c, root, inventory)) <==>
            c.cursor.sequence == c.committed
    ensures Agrees(Entry(node, c, root), m) ==>
              m == HonestReport(m.clusterId, node, c, root, m.inventory).(macVerified := m.macVerified,
              inventoryConsistent := m.inventoryConsistent)
  {}

  function OldKey(h: Handoff): ChainKey {
    ChainKey(h.nodeId, h.incarnation, h.oldJournalId)
  }

  function NewKey(h: Handoff): ChainKey {
    ChainKey(h.nodeId, h.incarnation, h.newJournalId)
  }

  predicate EndsMatch(h: Handoff, before: MemberReport, after: MemberReport) {
    && before.inventory == h.oldInventory && before.eventsRoot == h.oldEvents
    && after.inventory == h.newInventory && after.baselineDigest == h.newBaselineDigest
  }

  ghost predicate DistinctChains(cs: seq<SnapshotChain>) {
    forall i, k :: 0 <= i < k < |cs| ==> ChainKeyOf(cs[i]) != ChainKeyOf(cs[k])
  }

  ghost predicate DistinctReports(ms: seq<MemberReport>) {
    forall i, k :: 0 <= i < k < |ms| ==> ReportKeyOf(ms[i]) != ReportKeyOf(ms[k])
  }

  ghost predicate CollectorOk(collector: SnapshotReport) {
    && 2 <= |collector.members| <= 3 && collector.notStarted == []
    && (forall i :: 0 <= i < |collector.chains| ==>
                      collector.chains[i].nodeId in collector.members && collector.chains[i].incarnation != "")
    && DistinctChains(collector.chains)
    && (forall n :: n in collector.members ==>
                      exists i :: 0 <= i < |collector.chains| && collector.chains[i].nodeId == n)
  }

  ghost predicate ReportsOk(collector: SnapshotReport, ms: seq<MemberReport>) {
    && DistinctReports(ms)
    && (forall k :: 0 <= k < |ms| ==> ValidMember(collector, ms[k]) && HasChain(collector.chains, ms[k]))
  }

  ghost predicate HasChain(cs: seq<SnapshotChain>, m: MemberReport) {
    exists i :: 0 <= i < |cs| && Agrees(cs[i], m)
  }

  ghost predicate HandoffsMatch(hs: seq<Handoff>, ms: seq<MemberReport>) {
    forall x :: 0 <= x < |hs| ==> HandoffMatched(hs[x], ms)
  }

  ghost predicate HandoffMatched(h: Handoff, ms: seq<MemberReport>) {
    exists a, b :: 0 <= a < |ms| && 0 <= b < |ms| && ReportKeyOf(ms[a]) == OldKey(h) && ReportKeyOf(ms[b]) == NewKey(h)
                   && EndsMatch(h, ms[a], ms[b])
  }

  /** What an all-chain comparison certifies. */
  ghost predicate AllMatch(collector: SnapshotReport, ms: seq<MemberReport>) {
    |ms| == |collector.chains| && CollectorOk(collector) && ReportsOk(collector, ms)
    && HandoffsMatch(collector.handoffs, ms)
  }

  ghost function ChainKeys(cs: seq<SnapshotChain>): set<ChainKey> {
    set i | 0 <= i < |cs| :: ChainKeyOf(cs[i])
  }

  ghost function ReportKeys(ms: seq<MemberReport>): set<ChainKey> {
    set i | 0 <= i < |ms| :: ReportKeyOf(ms[i])
  }

  lemma DistinctSnoc(init: seq<SnapshotChain>, last: SnapshotChain)
    ensures DistinctChains(init + [last]) <==> DistinctChains(init) && ChainKeyOf(last) !in ChainKeys(init)
    ensures ChainKeys(init + [last]) == ChainKeys(init) + {ChainKeyOf(last)}
  {
    hide ChainKeyOf;
    var cs := init + [last];
    assert cs[|init|] == last && forall i :: 0 <= i < |init| ==> cs[i] == init[i];
    if DistinctChains(cs) {
      forall i, k | 0 <= i < k < |init| ensures ChainKeyOf(init[i]) != ChainKeyOf(init[k]) {
        assert ChainKeyOf(cs[i]) != ChainKeyOf(cs[k]);
      }
      forall i | 0 <= i < |init| ensures ChainKeyOf(init[i]) != ChainKeyOf(last) {
        assert ChainKeyOf(cs[i]) != ChainKeyOf(cs[|init|]);
      }
    }
    if DistinctChains(init) && ChainKeyOf(last) !in ChainKeys(init) {
      forall i, k | 0 <= i < k < |cs| ensures ChainKeyOf(cs[i]) != ChainKeyOf(cs[k]) {
        assert ChainKeyOf(init[i]) in ChainKeys(init);
      }
    }
  }

  lemma {:induction false} ChainKeysCount(cs: seq<SnapshotChain>)
    ensures |ChainKeys(cs)| <= |cs|
    ensures |ChainKeys(cs)| == |cs| <==> DistinctChains(cs)
  {
    if cs != [] {
      var init, last := cs[..|cs| - 1], cs[|cs| - 1];
      ChainKeysCount(init);
      assert cs == init + [last];
      hide ChainKeyOf, ChainKeys, DistinctChains;
      DistinctSnoc(init, last);
    }
  }

  lemma {:induction false} ReportKeysCount(ms: seq<MemberReport>)
    requires DistinctReports(ms)
    ensures |ReportKeys(ms)| == |ms|
  {
    hide ReportKeyOf;
    if ms != [] {
      var init, last := ms[..|ms| - 1], ms[|ms| - 1];
      assert ms == init + [last];
      forall i, k | 0 <= i < k < |init| ensures ReportKeyOf(init[i]) != ReportKeyOf(init[k]) {
        assert ReportKeyOf(ms[i]) != ReportKeyOf(ms[k]);
      }
      ReportKeysCount(init);
      assert ReportKeys(ms) == ReportKeys(init) + {ReportKeyOf(last)};
      forall i | 0 <= i < |init| ensures ReportKeyOf(init[i]) != ReportKeyOf(last) {
        assert ReportKeyOf(ms[i]) != ReportKeyOf(ms[|ms| - 1]);
      }
    }
  }

  /** A certified comparison is a bijection: every collected chain has exactly
      one report, that report agrees with it, and no report is left over. */
  lemma AllMatchBijection(collector: SnapshotReport, ms: seq<MemberReport>, i: nat)
    requires AllMatch(collector, ms) && i < |collector.chains|
    ensures exists k :: 0 <= k < |ms| && Agrees(collector.chains[i], ms[k])
    ensures forall k, l :: (&& 0 <= k < |ms| && 0 <= l < |ms|
                            && Agrees(collector.chains[i], ms[k]) && Agrees(collector.chains[i], ms[l])) ==> k == l
  {
    var cs := collector.chains;
    ChainKeysCount(cs);
    ReportKeysCount(ms);
    forall key | key in ReportKeys(ms) ensures key in ChainKeys(cs) {
      var k :| 0 <= k < |ms| && ReportKeyOf(ms[k]) == key;
      assert HasChain(cs, ms[k]);
      var x :| 0 <= x < |cs| && Agrees(cs[x], ms[k]);
    }
    SubsetSmaller(ReportKeys(ms), ChainKeys(cs));
    assert ChainKeyOf(cs[i]) in ReportKeys(ms);
    var k :| 0 <= k < |ms| && ReportKeyOf(ms[k]) == ChainKeyOf(cs[i]);
    assert HasChain(cs, ms[k]);
    var x :| 0 <= x < |cs| && Agrees(cs[x], ms[k]);
    assert x == i;
  }

  /** The lookup table holds, per key, one of the chains that have it. */
  ghost predicate Indexed(cs: seq<SnapshotChain>, table: map<ChainKey, SnapshotChain>) {
    && table.Keys == ChainKeys(cs)
    && forall key :: key in table ==> ChainKeyOf(table[key]) == key && table[key] in cs
  }

  lemma IndexedStep(cs: seq<SnapshotChain>, i: nat, table: map<ChainKey, SnapshotChain>)
    requires i < |cs| && Indexed(cs[..i], table)
    ensures Indexed(cs[..i + 1], table[ChainKeyOf(cs[i]) := cs[i]])
  {}

  lemma IndexedRepeat(cs: seq<SnapshotChain>, i: nat, table: map<ChainKey, SnapshotChain>)
    requires i < |cs| && Indexed(cs[..i], table) && ChainKeyOf(cs[i]) in table
    ensures !DistinctChains(cs)
  {}

  method CollectChains(collector: SnapshotReport) returns (ok: bool, table: map<ChainKey, SnapshotChain>)
    ensures ok ==> Indexed(collector.chains, table)
    ensures ok ==> forall i :: 0 <= i < |collector.chains| ==>
                                 collector.chains[i].nodeId in collector.members
                                 && collector.chains[i].incarnation != ""
    ensures !ok ==> !CollectorOk(collector)
  {
    hide Indexed, DistinctChains;
    table := map[];
    var cs := collector.chains;
    IndexedEmpty();
    for i := 0 to |cs|
      invariant Indexed(cs[..i], table)
      invariant forall k :: 0 <= k < i ==> cs[k].nodeId in collector.members && cs[k].incarnation != ""
    {
      var key := ChainKeyOf(cs[i]);
      if cs[i].nodeId !in collector.members || cs[i].incarnation == "" {
        return false, table;
      }
      if key in table && table[key].nodeId != "" {
        IndexedRepeat(cs, i, table);
        return false, table;
      }
      IndexedStep(cs, i, table);
      table := table[key := cs[i]];
    }
    assert cs[..|cs|] == cs;
    ok := true;
  }

  lemma IndexedEmpty()
    ensures Indexed([], map[])
  {}

  method EveryMember(collector: SnapshotReport) returns (ok: bool)
    ensures ok <==> forall n :: n in collector.members ==>
                                  exists i :: 0 <= i < |collector.chains| && collector.chains[i].nodeId == n
  {
    var counted: set<string> := {};
    for i := 0 to |collector.chains|
      invariant counted == set k | 0 <= k < i :: collector.chains[k].nodeId
    {
      counted := counted + {collector.chains[i].nodeId};
    }
    for m := 0 to |collector.members|
      invariant forall k :: 0 <= k < m ==> collector.members[k] in counted
    {
      if collector.members[m] !in counted {
        assert collector.members[m] in collector.members;
        return false;
      }
    }
    return true;
  }

  ghost predicate Verified(ms: seq<MemberReport>, verified: map<ChainKey, MemberReport>) {
    && verified.Keys == ReportKeys(ms)
    && forall k :: 0 <= k < |ms| ==> ReportKeyOf(ms[k]) in verified && verified[ReportKeyOf(ms[k])] == ms[k]
  }

  predicate Fitting(collector: SnapshotReport, table: map<ChainKey, SnapshotChain>, m: MemberReport) {
    ValidMember(collector, m) && ReportKeyOf(m) in table && Agrees(table[ReportKeyOf(m)], m)
  }

  lemma FittingMeans(collector: SnapshotReport, table: map<ChainKey, SnapshotChain>, m: MemberReport)
    requires Indexed(collector.chains, table)
    ensures Fitting(collector, table, m) ==> ValidMember(collector, m) && HasChain(collector.chains, m)
    ensures DistinctChains(collector.chains) && ValidMember(collector, m) && HasChain(collector.chains, m) ==>
              Fitting(collector, table, m)
  {}

  method MatchReports(collector: SnapshotReport, table: map<ChainKey, SnapshotChain>, ms: seq<MemberReport>)
    returns (ok: bool, verified: map<ChainKey, MemberReport>)
    requires Indexed(collector.chains, table)
    ensures ok ==> ReportsOk(collector, ms) && Verified(ms, verified)
    ensures !ok ==> !ReportsOk(collector, ms) || !DistinctChains(collector.chains)
  {
    hide ValidMember, Agrees, ReportKeyOf, DistinctChains, Indexed, HasChain;
    verified := map[];
    for k := 0 to |ms|
      invariant forall x :: 0 <= x < k ==> Fitting(collector, table, ms[x])
      invariant DistinctReports(ms[..k]) && Verified(ms[..k], verified)
    {
      var key := ReportKeyOf(ms[k]);
      if !ValidMember(collector, ms[k]) || key !in table || key in verified || !Agrees(table[key], ms[k]) {
        FittingMeans(collector, table, ms[k]);
        if key in verified {
          var x :| 0 <= x < k && ReportKeyOf(ms[..k][x]) == key;
          assert ReportKeyOf(ms[x]) == ReportKeyOf(ms[k]);
        }
        return false, verified;
      }
      verified := verified[key := ms[k]];
      VerifiedStep(ms, k, verified);
    }
    assert ms[..|ms|] == ms;
    forall k | 0 <= k < |ms| ensures ValidMember(collector, ms[k]) && HasChain(collector.chains, ms[k]) {
      FittingMeans(collector, table, ms[k]);
    }
    ok := true;
  }

  lemma VerifiedStep(ms: seq<MemberReport>, k: nat, verified: map<ChainKey, MemberReport>)
    requires k < |ms| && DistinctReports(ms[..k]) && ReportKeyOf(ms[k]) !in ReportKeys(ms[..k])
    requires ReportKeyOf(ms[k]) in verified && verified[ReportKeyOf(ms[k])] == ms[k]
    requires verified.Keys == ReportKeys(ms[..k]) + {ReportKeyOf(ms[k])}
    requires forall x :: 0 <= x < k ==> ReportKeyOf(ms[x]) in verified && verified[ReportKeyOf(ms[x])] == ms[x]
    ensures DistinctReports(ms[..k + 1]) && Verified(ms[..k + 1], verified)
  {
    hide ReportKeyOf;
    var init, all := ms[..k], ms[..k + 1];
    assert all == init + [ms[k]];
    assert ReportKeys(all) == ReportKeys(init) + {ReportKeyOf(ms[k])};
    forall i, x | 0 <= i < x < |all| ensures ReportKeyOf(all[i]) != ReportKeyOf(all[x]) {
      assert all[i] == init[i] && ReportKeyOf(init[i]) in ReportKeys(init);
      if x < k {
        assert all[x] == init[x];
      }
    }
  }

  /** The last count refuses exactly the tables that lost a duplicate chain. */
  lemma CountsMeet(collector: SnapshotReport, table: map<ChainKey, SnapshotChain>, ms: seq<MemberReport>,
                   verified: map<ChainKey, MemberReport>)
    requires Indexed(collector.chains, table) && Verified(ms, verified) && DistinctReports(ms)
    requires |ms| == |collector.chains|
    ensures |verified| == |table| <==> DistinctChains(collector.chains)
  {
    ChainKeysCount(collector.chains);
    ReportKeysCount(ms);
    assert |table| == |table.Keys| && |verified| == |verified.Keys|;
  }

  method HandoffEndsHold(hs: seq<Handoff>, ms: seq<MemberReport>, verified: map<ChainKey, MemberReport>)
    returns (ok: bool)
    requires Verified(ms, verified) && DistinctReports(ms)
    ensures ok <==> HandoffsMatch(hs, ms)
  {
    for x := 0 to |hs|
      invariant forall y :: 0 <= y < x ==> HandoffMatched(hs[y], ms)
    {
      var h := hs[x];
      HandoffLookup(h, ms, verified);
      if OldKey(h) !in verified || NewKey(h) !in verified || !EndsMatch(h, verified[OldKey(h)], verified[NewKey(h)]) {
        return false;
      }
    }
    return true;
  }

  lemma HandoffLookup(h: Handoff, ms: seq<MemberReport>, verified: map<ChainKey, MemberReport>)
    requires Verified(ms, verified) && DistinctReports(ms)
    ensures HandoffMatched(h, ms) <==> OldKey(h) in verified && NewKey(h) in verified
                                       && EndsMatch(h, verified[OldKey(h)], verified[NewKey(h)])
  {}

  /** compareAllSnapshotChains. */
  method CompareAllChains(collector: SnapshotReport, reports: seq<MemberReport>) returns (ok: bool)
    ensures ok <==> AllMatch(collector, reports)
  {
    if |collector.members| < 2 || |collector.members| > 3 || |collector.notStarted| != 0
       || |reports| != |collector.chains| {
      return false;
    }
    var collected, chains := CollectChains(collector);
    if !collected {
      return false;
    }
    var covered := EveryMember(collector);
    if !covered {
      return false;
    }
    var matched, verified := MatchReports(collector, chains, reports);
    if !matched {
      return false;
    }
    CountsMeet(collector, chains, reports, verified);
    if |verified| != |chains| {
      return false;
    }
    ok := HandoffEndsHold(collector.handoffs, reports, verified);
  }
}
