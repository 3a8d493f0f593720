/** What a reader may conclude from a successful replay. */
module DurableSoundness {
  import opened Basics
  import opened Transitions
  import opened DurableDocument

  // ---------------------------------------------------------------------------
  // Positions never move

  /** Every chain of the previous document is found again at the same place. */
  ghost predicate Aligned(p: Document, d: Document) {
    forall n, i :: At(p, n, i) ==> At(d, n, i) && Continues(ChainAt(p, n, i), ChainAt(d, n, i))
  }

  /** Order keys, linkage and the lost-chain count together pin each chain to
      its place, although the verifier never compares positions directly. */
  lemma AcceptedAligned(h: Hash, id: Identity, prefix: seq<Document>, d: Document)
    requires AcceptsNext(h, id, prefix, d)
    requires prefix == [] || ChainsOk(id, Previous(prefix))
    ensures Aligned(Previous(prefix), d)
    ensures forall n, i :: At(Previous(prefix), n, i) ==> JournalAt(d, n, i) == JournalAt(Previous(prefix), n, i)
  {
    var p := Previous(prefix);
    forall n, i | At(p, n, i)
      ensures At(d, n, i) && JournalAt(d, n, i) == JournalAt(p, n, i) && Continues(ChainAt(p, n, i), ChainAt(d, n, i))
    {
      JournalsAt(p, n, i);
      var m, k :| m in d.chains && 0 <= k < |d.chains[m]| && d.chains[m][k].cursor.journalId == JournalAt(p, n, i);
      assert At(d, m, k) && ChainOk(id, d, m, k) && ChainOk(id, p, n, i);
      assert Continues(ChainAt(p, n, i), ChainAt(d, m, k));
      assert m == n;
      assert At(d, n, i) && ChainOk(id, d, n, i);
      OrderKeyInjective(p.chains[n][i], d.chains[n][i]);
    }
  }

  lemma PreviousOk(h: Hash, id: Identity, docs: seq<Document>, k: nat)
    requires Replays(h, id, docs) && k <= |docs|
    ensures k == 0 || ChainsOk(id, Previous(docs[..k]))
    ensures k > 0 ==> Previous(docs[..k]) == docs[k - 1]
  {
    if k > 0 {
      assert AcceptedAt(h, id, docs, k - 1);
    }
  }

  // ---------------------------------------------------------------------------
  // Complete journals

  /** The whole history of a chain, from the baseline to its cursor. */
  predicate CompleteJournal(c: Chain, hist: seq<Event>) {
    && |hist| == c.cursor.sequence
    && Accepts(Baseline(c), ZERO_TIME, hist)
    && EndCursor(Baseline(c), hist) == c.cursor
    && EndTime(ZERO_TIME, hist) == c.lastAt
  }

  lemma CompleteExtends(p: Chain, c: Chain, hist: seq<Event>)
    requires CompleteJournal(p, hist) && ValidChain(c) && Continues(p, c)
    ensures CompleteJournal(c, hist + c.events)
  {
    assert Baseline(p) == Baseline(c);
    AcceptsConcat(Baseline(c), ZERO_TIME, hist, c.events);
    EndsConcat(Baseline(c), ZERO_TIME, hist, c.events);
  }

  lemma CompleteFirst(c: Chain)
    requires ValidChain(c) && c.start.sequence == 0
    ensures CompleteJournal(c, [] + c.events)
  {
    assert [] + c.events == c.events;
  }

  /** Journals the last document does not know have no history at all, and every
      journal it knows is complete. */
  lemma {:induction false} ReplayComplete(h: Hash, id: Identity, docs: seq<Document>)
    requires Replays(h, id, docs)
    ensures forall j :: j !in Journals(Previous(docs)) ==> History(docs, j) == []
    ensures forall n, i :: At(Previous(docs), n, i) ==>
                             CompleteJournal(ChainAt(Previous(docs), n, i),
                                             History(docs, JournalAt(Previous(docs), n, i)))
  {
    if docs != [] {
      var last := |docs| - 1;
      var prefix, d := docs[..last], docs[last];
      assert docs == prefix + [d];
      ReplaysPrefix(h, id, docs, last);
      ReplayComplete(h, id, prefix);
      PreviousOk(h, id, docs, last);
      assert AcceptedAt(h, id, docs, last);
      AcceptedAligned(h, id, prefix, d);
      forall n, i | At(d, n, i)
        ensures CompleteJournal(ChainAt(d, n, i), History(docs, JournalAt(d, n, i)))
      {
        ReplayCompleteAt(h, id, prefix, d, n, i);
      }
    }
  }

  lemma ReplayCompleteAt(h: Hash, id: Identity, prefix: seq<Document>, d: Document, n: string, i: int)
    requires AcceptsNext(h, id, prefix, d) && At(d, n, i)
    requires forall j :: j !in Journals(Previous(prefix)) ==> History(prefix, j) == []
    requires forall m, k :: At(Previous(prefix), m, k) ==>
                              CompleteJournal(ChainAt(Previous(prefix), m, k),
                                              History(prefix, JournalAt(Previous(prefix), m, k)))
    ensures CompleteJournal(ChainAt(d, n, i), History(prefix + [d], JournalAt(d, n, i)))
  {
    var p, c, j := Previous(prefix), ChainAt(d, n, i), JournalAt(d, n, i);
    HistorySnoc(prefix, d, j);
    EventsAt(d, n, i);
    assert ChainOk(id, d, n, i);
    if j in Journals(p) {
      var m, k :| m in p.chains && 0 <= k < |p.chains[m]| && p.chains[m][k].cursor.journalId == j;
      assert At(p, m, k);
      CompleteExtends(ChainAt(p, m, k), c, History(prefix, j));
    } else {
      CompleteFirst(c);
    }
  }

  /** Event `k` of a journal is number `k + 1`, names its predecessor's digest
      and state (the baseline's for the first), and is not dated before it. */
  predicate Placed(c: Chain, hist: seq<Event>, k: nat)
    requires k < |hist|
  {
    && hist[k].sequence == k + 1 && ValidChange(hist[k])
    && hist[k].previousDigest == (if k == 0 then c.cursor.baselineDigest else hist[k - 1].digest)
    && hist[k].fromRole == (if k == 0 then c.baselineRole else hist[k - 1].toRole)
    && hist[k].fromTerm == (if k == 0 then c.baselineTerm else hist[k - 1].toTerm)
    && hist[k].fromPromised == (if k == 0 then c.baselinePromised else hist[k - 1].toPromised)
    && (k > 0 ==> hist[k - 1].at <= hist[k].at)
  }

  predicate EndsAtCursor(c: Chain, hist: seq<Event>) {
    hist != [] ==>
      var e := hist[|hist| - 1];
      && c.cursor.digest == e.digest && c.cursor.role == e.toRole && c.cursor.term == e.toTerm
      && c.cursor.promised == e.toPromised && c.lastAt == e.at
  }

  lemma CompletePlaced(c: Chain, hist: seq<Event>, k: nat)
    requires CompleteJournal(c, hist) && k < |hist|
    ensures Placed(c, hist, k)
  {
    Numbering(Baseline(c), ZERO_TIME, hist, k + 1);
    assert StepOk(Baseline(c), ZERO_TIME, hist, k);
  }

  /** Verifier soundness: after a successful replay every journal of the last
      document is complete, event by event, from its baseline to its cursor. */
  lemma VerifierSoundness(h: Hash, id: Identity, docs: seq<Document>, n: string, i: int)
    requires Replays(h, id, docs) && docs != [] && At(docs[|docs| - 1], n, i)
    ensures var c := ChainAt(docs[|docs| - 1], n, i);
            var hist := History(docs, c.cursor.journalId);
            && |hist| == c.cursor.sequence
            && (forall k :: 0 <= k < |hist| ==> Placed(c, hist, k))
            && EndsAtCursor(c, hist)
  {
    var c := ChainAt(docs[|docs| - 1], n, i);
    var hist := History(docs, c.cursor.journalId);
    ReplayComplete(h, id, docs);
    assert CompleteJournal(c, hist);
    forall k | 0 <= k < |hist| ensures Placed(c, hist, k) {
      CompletePlaced(c, hist, k);
    }
  }

  // ---------------------------------------------------------------------------
  // Growth over a replay

  ghost predicate HistoryGrows(a: seq<Document>, b: seq<Document>) {
    forall j :: History(a, j) <= History(b, j)
  }

  ghost predicate PlacesKept(a: Document, b: Document) {
    forall n, i :: At(a, n, i) ==>
                     && At(b, n, i) && JournalAt(b, n, i) == JournalAt(a, n, i)
                     && ChainAt(b, n, i).incarnation == ChainAt(a, n, i).incarnation
                     && ChainAt(a, n, i).cursor.sequence <= ChainAt(b, n, i).cursor.sequence
  }

  lemma AcceptedGrows(h: Hash, id: Identity, prefix: seq<Document>, d: Document)
    requires AcceptsNext(h, id, prefix, d)
    requires prefix == [] || ChainsOk(id, Previous(prefix))
    ensures PlacesKept(Previous(prefix), d) && HistoryGrows(prefix, prefix + [d])
  {
    AcceptedAligned(h, id, prefix, d);
    forall j ensures History(prefix, j) <= History(prefix + [d], j) {
      HistorySnoc(prefix, d, j);
    }
    forall n, i | At(d, n, i) ensures ValidChain(ChainAt(d, n, i)) {
      assert ChainOk(id, d, n, i);
    }
  }

  /** Nothing is reordered, renamed or lost from one retained prefix to a later
      one: chains keep place, journal and incarnation, handoffs are appended. */
  ghost predicate Grown(da: Document, db: Document) {
    da.handoffs <= db.handoffs && Journals(da) <= Journals(db) && PlacesKept(da, db)
  }

  lemma GrownThrough(da: Document, db: Document, dc: Document)
    requires Grown(da, db) && Grown(db, dc)
    ensures Grown(da, dc)
  {}

  lemma ReplayGrowsOnce(h: Hash, id: Identity, docs: seq<Document>, b: nat)
    requires Replays(h, id, docs) && 0 < b < |docs|
    ensures Grown(docs[b - 1], docs[b]) && HistoryGrows(docs[..b], docs[..b + 1])
  {
    assert AcceptedAt(h, id, docs, b);
    PreviousOk(h, id, docs, b);
    AcceptedGrows(h, id, docs[..b], docs[b]);
    assert docs[..b + 1] == docs[..b] + [docs[b]];
  }

  lemma {:induction false} ReplayGrows(h: Hash, id: Identity, docs: seq<Document>, a: nat, b: nat)
    requires Replays(h, id, docs) && a <= b < |docs|
    ensures Grown(docs[a], docs[b])
    ensures HistoryGrows(docs[..a + 1], docs[..b + 1])
    decreases b
  {
    if a < b {
      ReplayGrows(h, id, docs, a, b - 1);
      ReplayGrowsOnce(h, id, docs, b);
      GrownThrough(docs[a], docs[b - 1], docs[b]);
      GrowsThrough(docs[..a + 1], docs[..b], docs[..b + 1]);
    }
  }

  lemma GrowsThrough(a: seq<Document>, b: seq<Document>, c: seq<Document>)
    requires HistoryGrows(a, b) && HistoryGrows(b, c)
    ensures HistoryGrows(a, c)
  {}

  // ---------------------------------------------------------------------------
  // Handoffs pair up with continued journals

  ghost function NewIds(hs: seq<Handoff>): set<string> {
    set k | 0 <= k < |hs| :: hs[k].newJournalId
  }

  lemma {:induction false} NewIdsBound(hs: seq<Handoff>)
    ensures |NewIds(hs)| <= |hs|
    ensures |NewIds(hs)| == |hs| ==> forall a, b :: 0 <= a < b < |hs| ==> hs[a].newJournalId != hs[b].newJournalId
  {
    if hs != [] {
      var init, last := hs[..|hs| - 1], hs[|hs| - 1];
      NewIdsBound(init);
      assert NewIds(hs) == NewIds(init) + {last.newJournalId} by {
        forall j | j in NewIds(hs) ensures j in NewIds(init) + {last.newJournalId} {
          var k :| 0 <= k < |hs| && hs[k].newJournalId == j;
          assert k < |init| ==> init[k] == hs[k];
        }
        forall j | j in NewIds(init) ensures j in NewIds(hs) {
          var k :| 0 <= k < |init| && init[k].newJournalId == j;
          assert hs[k] == init[k];
        }
        assert hs[|hs| - 1].newJournalId in NewIds(hs);
      }
      if |NewIds(hs)| == |hs| {
        assert last.newJournalId !in NewIds(init);
        forall a, b | 0 <= a < b < |hs| ensures hs[a].newJournalId != hs[b].newJournalId {
          assert init[a] == hs[a];
          if b < |init| {
            assert init[b] == hs[b];
          } else {
            assert init[a].newJournalId in NewIds(init);
          }
        }
      }
    }
  }

  lemma ContinuationsNamed(id: Identity, d: Document)
    requires ChainsOk(id, d)
    ensures Continuations(d) <= NewIds(d.handoffs)
  {
    forall j | j in Continuations(d) ensures j in NewIds(d.handoffs) {
      var n :| n in d.chains && j in NodeContinuations(d.chains[n]);
      var cs := d.chains[n];
      var i :| 0 <= i < |cs| && Repeated(cs, i) && cs[i].cursor.journalId == j;
      assert At(d, n, i) && ChainOk(id, d, n, i);
      var k :| 0 <= k < |d.handoffs| && HandoffMatches(d.handoffs[k], n, cs[i - 1], cs[i]);
    }
  }

  /** The count comparison at the end of verify is a pigeonhole: every handoff
      is the unique one for its new journal, and it backs a chain that directly
      follows the journal it retires. */
  lemma HandoffsPaired(h: Hash, id: Identity, prefix: seq<Document>, d: Document, k: nat)
    requires AcceptsNext(h, id, prefix, d) && k < |d.handoffs|
    ensures exists i :: i > 0 && At(d, d.handoffs[k].nodeId, i)
                        && HandoffMatches(d.handoffs[k], d.handoffs[k].nodeId,
                                          ChainAt(d, d.handoffs[k].nodeId, i - 1), ChainAt(d, d.handoffs[k].nodeId, i))
    ensures forall m :: 0 <= m < |d.handoffs| && m != k ==> d.handoffs[m].newJournalId != d.handoffs[k].newJournalId
  {
    ContinuationsNamed(id, d);
    NewIdsBound(d.handoffs);
    SubsetSmaller(Continuations(d), NewIds(d.handoffs));
    var hk := d.handoffs[k];
    assert hk.newJournalId in Continuations(d);
    var n :| n in d.chains && hk.newJournalId in NodeContinuations(d.chains[n]);
    var cs := d.chains[n];
    var i :| 0 <= i < |cs| && Repeated(cs, i) && cs[i].cursor.journalId == hk.newJournalId;
    assert At(d, n, i) && ChainOk(id, d, n, i);
    var m :| 0 <= m < |d.handoffs| && HandoffMatches(d.handoffs[m], n, cs[i - 1], cs[i]);
    assert m == k;
    assert At(d, n, i - 1) && ChainAt(d, n, i - 1) == cs[i - 1] && ChainAt(d, n, i) == cs[i];
  }
}
