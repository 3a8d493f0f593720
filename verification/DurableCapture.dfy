/** Adding one page to the current document and rolling it over
    (prepareDurableCapture and rolledDurableArchiveDocument in
    cmd/halro-ha-health/durable_archive.go). */
module DurableCapture {
  import opened Basics
  import opened Transitions
  import opened DurableDocument
  import opened DurableSoundness

  datatype Refusal = IdentityOrSchema | IncarnationReused | JournalIdReused | ChainMismatch

  datatype Prepared = Ready(doc: Document) | Refused(reason: Refusal)

  /** The page continues the node's last chain. */
  predicate SameIncarnation(cs: seq<Chain>, page: Page) {
    cs != [] && cs[|cs| - 1].incarnation == page.incarnation
  }

  /** A chain that holds nothing but its baseline. */
  function FirstChain(node: string, page: Page): Chain {
    Chain(node, page.incarnation, page.baselineKind, page.baselineRole, page.baselineTerm, page.baselinePromised,
          PageBaseline(page), ZERO_TIME, PageBaseline(page), ZERO_TIME, 0, "", ZERO_TIME, [])
  }

  predicate PageFits(c: Chain, page: Page, cursor: Cursor) {
    && cursor.sequence == c.cursor.sequence + |page.events|
    && c.cursor.journalId == cursor.journalId && c.cursor.baselineDigest == cursor.baselineDigest
    && c.baselineKind == page.baselineKind && c.baselineRole == page.baselineRole
    && c.baselineTerm == page.baselineTerm && c.baselinePromised == page.baselinePromised
    && (page.events != [] ==> c.lastAt <= page.events[0].at)
  }

  function Extended(c: Chain, page: Page, cursor: Cursor, now: Time): Chain {
    c.(events := c.events + page.events, cursor := cursor, committed := page.committed, headDigest := page.headDigest,
    observedAt := now,
    lastAt := if page.events == [] then c.lastAt else page.events[|page.events| - 1].at)
  }

  predicate PageIdentityOk(base: Document, node: string, page: Page) {
    node in base.members && page.nodeId == node && page.clusterId == base.cluster && page.version == 1
  }

  /** The node's chains with the one the page belongs to last. */
  function TargetChains(base: Document, node: string, page: Page): seq<Chain> {
    var cs := ChainsOf(base, node);
    if SameIncarnation(cs, page) then cs else cs + [FirstChain(node, page)]
  }

  function WithLast(cs: seq<Chain>, c: Chain): seq<Chain>
    requires cs != []
  {
    cs[|cs| - 1 := c]
  }

  ghost function Prepare(base: Document, node: string, page: Page, cursor: Cursor, now: Time): Prepared {
    var cs := ChainsOf(base, node);
    if !PageIdentityOk(base, node, page) then Refused(IdentityOrSchema)
    else if !SameIncarnation(cs, page) && (exists i :: 0 <= i < |cs| && cs[i].incarnation == page.incarnation) then
      Refused(IncarnationReused)
    else if !SameIncarnation(cs, page) && page.nextJournalId in Journals(base) then Refused(JournalIdReused)
    else
      var target := TargetChains(base, node, page);
      var c := target[|target| - 1];
      if !PageFits(c, page, cursor) || !ValidChain(Extended(c, page, cursor, now)) then Refused(ChainMismatch)
      else Ready(base.(chainsPresent := true,
                 chains := base.chains[node := WithLast(target, Extended(c, page, cursor, now))]))
  }

  method JournalKnown(base: Document, journal: string) returns (known: bool)
    ensures known <==> journal in Journals(base)
  {
    var todo := base.chains.Keys;
    while todo != {}
      invariant todo <= base.chains.Keys
      invariant forall n, i :: At(base, n, i) && n !in todo ==> JournalAt(base, n, i) != journal
      decreases |todo|
    {
      var node :| node in todo;
      var cs := base.chains[node];
      for i := 0 to |cs|
        invariant forall k :: 0 <= k < i ==> cs[k].cursor.journalId != journal
      {
        if cs[i].cursor.journalId == journal {
          JournalsAt(base, node, i);
          return true;
        }
      }
      todo := todo - {node};
    }
    if journal in Journals(base) {
      var n, i :| n in base.chains && 0 <= i < |base.chains[n]| && base.chains[n][i].cursor.journalId == journal;
      assert At(base, n, i);
    }
    return false;
  }

  /** prepareDurableCapture. */
  method PrepareCapture(base: Document, node: string, page: Page, cursor: Cursor, now: Time) returns (r: Prepared)
    ensures r == Prepare(base, node, page, cursor, now)
  {
    if !PageIdentityOk(base, node, page) {
      return Refused(IdentityOrSchema);
    }
    var chains := ChainsOf(base, node);
    if chains == [] || chains[|chains| - 1].incarnation != page.incarnation {
      for i := 0 to |chains|
        invariant forall k :: 0 <= k < i ==> chains[k].incarnation != page.incarnation
      {
        if chains[i].incarnation == page.incarnation {
          return Refused(IncarnationReused);
        }
      }
      var known := JournalKnown(base, page.nextJournalId);
      if known {
        return Refused(JournalIdReused);
      }
      chains := chains + [FirstChain(node, page)];
    }
    var chain := chains[|chains| - 1];
    if !PageFits(chain, page, cursor) {
      return Refused(ChainMismatch);
    }
    var extended := Extended(chain, page, cursor, now);
    var valid := ValidStoredChain(extended);
    if !valid {
      return Refused(ChainMismatch);
    }
    return Ready(base.(chainsPresent := true, chains := base.chains[node := WithLast(chains, extended)]));
  }

  // ---------------------------------------------------------------------------
  // What a capture changes

  /** Where the page went. */
  function TargetIndex(base: Document, node: string, page: Page): nat {
    |TargetChains(base, node, page)| - 1
  }

  /** Everything but the target chain is untouched. */
  lemma CapturePositions(base: Document, node: string, page: Page, cursor: Cursor, now: Time)
    requires Prepare(base, node, page, cursor, now).Ready?
    ensures var d, t := Prepare(base, node, page, cursor, now).doc, TargetIndex(base, node, page);
            && At(d, node, t) && JournalAt(d, node, t) == cursor.journalId
            && t + 1 == |d.chains[node]|
            && (forall n, i :: At(d, n, i) <==> At(base, n, i) || (n == node && i == t))
            && (forall n, i :: At(d, n, i) && !(n == node && i == t) ==> ChainAt(d, n, i) == ChainAt(base, n, i))
            && (At(base, node, t) <==> SameIncarnation(ChainsOf(base, node), page))
            && ChainAt(d, node, t) == Extended(TargetChains(base, node, page)[t], page, cursor, now)
            && (At(base, node, t) ==> TargetChains(base, node, page)[t] == ChainAt(base, node, t)
                                      && JournalAt(base, node, t) == cursor.journalId)
            && (!At(base, node, t) ==>
                  cursor.journalId !in Journals(base) && TargetChains(base, node, page)[t].events == [])
  {}

  lemma CaptureUnique(base: Document, node: string, page: Page, cursor: Cursor, now: Time)
    requires Prepare(base, node, page, cursor, now).Ready? && UniqueJournals(base)
    ensures UniqueJournals(Prepare(base, node, page, cursor, now).doc)
  {
    CapturePositions(base, node, page, cursor, now);
    var d, t := Prepare(base, node, page, cursor, now).doc, TargetIndex(base, node, page);
    hide Prepare, TargetIndex, Journals, Extended;
    forall n, i | At(d, n, i) && !(n == node && i == t) ensures JournalAt(d, n, i) != cursor.journalId {
      JournalsAt(base, n, i);
    }
  }

  /** A capture appends exactly the page's events to exactly its journal. */
  lemma CaptureAppends(base: Document, node: string, page: Page, cursor: Cursor, now: Time, j: string)
    requires Prepare(base, node, page, cursor, now).Ready? && UniqueJournals(base)
    ensures var d := Prepare(base, node, page, cursor, now).doc;
            EventsIn(d, j) == EventsIn(base, j) + (if j == cursor.journalId then page.events else [])
  {
    CapturePositions(base, node, page, cursor, now);
    CaptureUnique(base, node, page, cursor, now);
    var d, t := Prepare(base, node, page, cursor, now).doc, TargetIndex(base, node, page);
    if j == cursor.journalId {
      EventsAt(d, node, t);
      if At(base, node, t) {
        EventsAt(base, node, t);
      }
    } else if j in Journals(base) {
      var n, i :| n in base.chains && 0 <= i < |base.chains[n]| && base.chains[n][i].cursor.journalId == j;
      assert At(base, n, i) && At(d, n, i);
      EventsAt(base, n, i);
      EventsAt(d, n, i);
    } else if j in Journals(d) {
      var n, i :| n in d.chains && 0 <= i < |d.chains[n]| && d.chains[n][i].cursor.journalId == j;
      assert At(d, n, i);
      JournalsAt(base, n, i);
    }
  }

  // ---------------------------------------------------------------------------
  // A captured document still replays

  lemma CaptureRepeated(base: Document, node: string, page: Page, cursor: Cursor, now: Time, i: nat)
    requires Prepare(base, node, page, cursor, now).Ready?
    requires i <= TargetIndex(base, node, page)
    ensures var cs := Prepare(base, node, page, cursor, now).doc.chains[node];
            if At(base, node, i) then Repeated(cs, i) == Repeated(base.chains[node], i) else !Repeated(cs, i)
  {
    CapturePositions(base, node, page, cursor, now);
    var cs := Prepare(base, node, page, cursor, now).doc.chains[node];
    var target := TargetChains(base, node, page);
    assert forall k :: 0 <= k < |cs| ==> cs[k].incarnation == target[k].incarnation;
    if At(base, node, i) {
      assert forall k :: 0 <= k <= i ==> target[k] == base.chains[node][k];
    }
  }

  lemma CaptureContinuation(base: Document, node: string, page: Page, cursor: Cursor, now: Time, i: nat)
    requires Prepare(base, node, page, cursor, now).Ready?
    requires i <= TargetIndex(base, node, page)
    requires forall k :: At(base, node, k) ==> ContinuationOk(base.handoffs, node, base.chains[node], k)
    ensures var d := Prepare(base, node, page, cursor, now).doc;
            ContinuationOk(d.handoffs, node, d.chains[node], i)
  {
    CapturePositions(base, node, page, cursor, now);
    CaptureRepeated(base, node, page, cursor, now, i);
    var d := Prepare(base, node, page, cursor, now).doc;
    var cs := d.chains[node];
    if Repeated(cs, i) {
      assert ContinuationOk(base.handoffs, node, base.chains[node], i);
      var bs := base.chains[node];
      var k :| 0 <= k < |base.handoffs| && HandoffMatches(base.handoffs[k], node, bs[i - 1], bs[i]);
      assert At(d, node, i - 1) && ChainAt(d, node, i - 1) == bs[i - 1];
      assert HandoffMatches(d.handoffs[k], node, cs[i - 1], cs[i]);
    }
  }

  lemma CaptureChainsOk(id: Identity, base: Document, node: string, page: Page, cursor: Cursor, now: Time)
    requires Prepare(base, node, page, cursor, now).Ready? && ChainsOk(id, base) && base.members == id.members
    ensures ChainsOk(id, Prepare(base, node, page, cursor, now).doc)
  {
    CapturePositions(base, node, page, cursor, now);
    CaptureUnique(base, node, page, cursor, now);
    var d, t := Prepare(base, node, page, cursor, now).doc, TargetIndex(base, node, page);
    forall k | At(base, node, k) ensures ContinuationOk(base.handoffs, node, base.chains[node], k) {
      assert ChainOk(id, base, node, k);
    }
    forall n, i | At(d, n, i) ensures ChainOk(id, d, n, i) {
      if n == node {
        CaptureContinuation(base, node, page, cursor, now, i);
        if At(base, node, i) {
          assert ChainOk(id, base, node, i);
        }
      } else {
        assert ChainOk(id, base, n, i) && d.chains[n] == base.chains[n];
      }
    }
  }

  /** Which positions are continuations does not change. */
  lemma CaptureRepeatedAt(base: Document, node: string, page: Page, cursor: Cursor, now: Time, n: string, i: int)
    requires Prepare(base, node, page, cursor, now).Ready?
    ensures var d := Prepare(base, node, page, cursor, now).doc;
            (At(d, n, i) && Repeated(d.chains[n], i)) <==> (At(base, n, i) && Repeated(base.chains[n], i))
    ensures var d := Prepare(base, node, page, cursor, now).doc;
            At(base, n, i) ==> At(d, n, i) && JournalAt(d, n, i) == JournalAt(base, n, i)
  {
    CapturePositions(base, node, page, cursor, now);
    var d := Prepare(base, node, page, cursor, now).doc;
    if n == node && At(d, n, i) {
      CaptureRepeated(base, node, page, cursor, now, i);
    }
  }

  lemma ContinuationAt(d: Document, j: string)
    ensures j in Continuations(d) <==> exists n, i :: At(d, n, i) && Repeated(d.chains[n], i) && JournalAt(d, n, i) == j
  {
    if j in Continuations(d) {
      var n :| n in d.chains && j in NodeContinuations(d.chains[n]);
      var i :| 0 <= i < |d.chains[n]| && Repeated(d.chains[n], i) && d.chains[n][i].cursor.journalId == j;
      assert At(d, n, i) && JournalAt(d, n, i) == j;
    }
    if n, i :| At(d, n, i) && Repeated(d.chains[n], i) && JournalAt(d, n, i) == j {
      assert j in NodeContinuations(d.chains[n]);
    }
  }

  lemma CaptureContinuations(base: Document, node: string, page: Page, cursor: Cursor, now: Time)
    requires Prepare(base, node, page, cursor, now).Ready?
    ensures Continuations(Prepare(base, node, page, cursor, now).doc) == Continuations(base)
  {
    hide Prepare, Continuations, Repeated;
    var d := Prepare(base, node, page, cursor, now).doc;
    forall j ensures j in Continuations(d) <==> j in Continuations(base) {
      ContinuationAt(d, j);
      ContinuationAt(base, j);
      forall n, i ensures (At(d, n, i) && Repeated(d.chains[n], i) && JournalAt(d, n, i) == j)
                     <==> (At(base, n, i) && Repeated(base.chains[n], i) && JournalAt(base, n, i) == j) {
        CaptureRepeatedAt(base, node, page, cursor, now, n, i);
      }
    }
  }

  /** The page's head and the clock are not behind what the last closed segment
      recorded for this journal. */
  ghost predicate NotRegressed(p: Document, journal: string, committed: U64, now: Time) {
    forall n, i :: At(p, n, i) && JournalAt(p, n, i) == journal ==>
                     ChainAt(p, n, i).committed <= committed && ChainAt(p, n, i).observedAt <= now
  }

  lemma CaptureLinked(p: Document, base: Document, node: string, page: Page, cursor: Cursor, now: Time)
    requires Prepare(base, node, page, cursor, now).Ready? && Linked(p, base) && Journals(p) <= Journals(base)
    ensures Linked(p, Prepare(base, node, page, cursor, now).doc) <==>
            NotRegressed(p, cursor.journalId, page.committed, now)
  {
    CapturePositions(base, node, page, cursor, now);
    var d, t := Prepare(base, node, page, cursor, now).doc, TargetIndex(base, node, page);
    var c := ChainAt(d, node, t);
    assert c.committed == page.committed && c.observedAt == now;
    forall n, i | At(p, n, i) && JournalAt(p, n, i) == cursor.journalId
      ensures At(base, node, t)
      ensures Continues(ChainAt(p, n, i), c) <==>
              ChainAt(p, n, i).committed <= page.committed && ChainAt(p, n, i).observedAt <= now
    {
      JournalsAt(p, n, i);
      assert Continues(ChainAt(p, n, i), ChainAt(base, node, t));
    }
  }

  lemma CaptureOrders(p: Document, base: Document, node: string, page: Page, cursor: Cursor, now: Time)
    requires Prepare(base, node, page, cursor, now).Ready? && OrdersKept(p, base)
    requires forall i :: At(p, node, i) ==> node in base.chains
    ensures OrdersKept(p, Prepare(base, node, page, cursor, now).doc)
    ensures Journals(base) <= Journals(Prepare(base, node, page, cursor, now).doc)
  {
    CapturePositions(base, node, page, cursor, now);
    var d, t := Prepare(base, node, page, cursor, now).doc, TargetIndex(base, node, page);
    forall n | n in d.chains && n in p.chains
      ensures |p.chains[n]| <= |d.chains[n]|
              && forall i :: 0 <= i < |p.chains[n]| ==> OrderKey(p.chains[n][i]) == OrderKey(d.chains[n][i])
    {
      if n == node && n !in base.chains && p.chains[n] != [] {
        assert At(p, node, 0);
      }
      forall i | 0 <= i < |p.chains[n]| ensures OrderKey(p.chains[n][i]) == OrderKey(d.chains[n][i]) {
        assert At(base, n, i) && At(d, n, i);
      }
    }
    forall j | j in Journals(base) ensures j in Journals(d) {
      var n, i :| n in base.chains && 0 <= i < |base.chains[n]| && base.chains[n][i].cursor.journalId == j;
      assert At(base, n, i) && At(d, n, i);
      JournalsAt(d, n, i);
    }
  }

  /** A retired journal is never the node's last chain, so no capture reaches it. */
  lemma RetiredUntouched(h: Hash, id: Identity, prefix: seq<Document>, base: Document,
                         node: string, page: Page, cursor: Cursor, now: Time, k: nat)
    requires Prepare(base, node, page, cursor, now).Ready? && AcceptsNext(h, id, prefix, base) && k < |base.handoffs|
    ensures base.handoffs[k].oldJournalId != cursor.journalId
    ensures base.handoffs[k].oldJournalId in Journals(base)
  {
    HandoffsPaired(h, id, prefix, base, k);
    CapturePositions(base, node, page, cursor, now);
    var hk := base.handoffs[k];
    var i :| i > 0 && At(base, hk.nodeId, i)
             && HandoffMatches(hk, hk.nodeId, ChainAt(base, hk.nodeId, i - 1), ChainAt(base, hk.nodeId, i));
    assert At(base, hk.nodeId, i - 1) && JournalAt(base, hk.nodeId, i - 1) == hk.oldJournalId;
    JournalsAt(base, hk.nodeId, i - 1);
  }

  lemma CaptureRoots(h: Hash, id: Identity, prefix: seq<Document>, base: Document,
                     node: string, page: Page, cursor: Cursor, now: Time)
    requires Prepare(base, node, page, cursor, now).Ready? && AcceptsNext(h, id, prefix, base)
    requires Journals(base) <= Journals(Prepare(base, node, page, cursor, now).doc)
    ensures var d := Prepare(base, node, page, cursor, now).doc; RootsOk(h, prefix + [d], d)
  {
    hide ChainsOk, Continuations, Linked, OrdersKept, EventsIn, UniqueJournals, Journals;
    var d := Prepare(base, node, page, cursor, now).doc;
    assert UniqueJournals(base) by { AcceptedUnique(h, id, prefix, base); }
    forall k | 0 <= k < |d.handoffs|
      ensures d.handoffs[k].oldJournalId in Journals(d)
      ensures h(History(prefix + [d], d.handoffs[k].oldJournalId)) == d.handoffs[k].oldEvents
    {
      var j := base.handoffs[k].oldJournalId;
      RetiredUntouched(h, id, prefix, base, node, page, cursor, now, k);
      CaptureAppends(base, node, page, cursor, now, j);
      HistorySnoc(prefix, base, j);
      HistorySnoc(prefix, d, j);
      assert EventsIn(base, j) + [] == EventsIn(base, j);
      assert h(History(prefix + [base], base.handoffs[k].oldJournalId)) == base.handoffs[k].oldEvents;
    }
  }

  lemma AcceptedUnique(h: Hash, id: Identity, prefix: seq<Document>, d: Document)
    requires AcceptsNext(h, id, prefix, d)
    ensures UniqueJournals(d)
  {}

  /** Exactly when a captured document is one its own verifier accepts: the
      capture itself compares neither the member's head nor the clock with the
      last closed segment, and nothing else can go wrong. */
  lemma CaptureAccepted(h: Hash, id: Identity, prefix: seq<Document>, base: Document,
                        node: string, page: Page, cursor: Cursor, now: Time)
    requires Replays(h, id, prefix) && AcceptsNext(h, id, prefix, base)
    requires Prepare(base, node, page, cursor, now).Ready?
    ensures AcceptsNext(h, id, prefix, Prepare(base, node, page, cursor, now).doc)
       <==> NotRegressed(Previous(prefix), cursor.journalId, page.committed, now)
  {
    hide ChainsOk, Continuations, RootsOk, Linked, OrdersKept, NotRegressed;
    var p, d := Previous(prefix), Prepare(base, node, page, cursor, now).doc;
    CaptureChainsOk(id, base, node, page, cursor, now);
    CaptureContinuations(base, node, page, cursor, now);
    CaptureLinked(p, base, node, page, cursor, now);
    PreviousOk(h, id, prefix, |prefix|);
    assert prefix[..|prefix|] == prefix;
    AcceptedAligned(h, id, prefix, base);
    CaptureOrders(p, base, node, page, cursor, now);
    CaptureRoots(h, id, prefix, base, node, page, cursor, now);
    assert HeaderOk(id, prefix, d) && HandoffListOk(p, d);
  }
}
