/** durableArchiveVerifier: the stateful replay of one document after another
    (cmd/halro-ha-health/durable_archive.go). */
module DurableVerifier {
  import opened Basics
  import opened Transitions
  import opened DurableDocument
  import opened DurableSoundness

  function Strip(c: Chain): Chain {
    c.(events := [])
  }

  function OrderOf(orders: map<string, seq<string>>, n: string): seq<string> {
    if n in orders then orders[n] else []
  }

  function RootOf(roots: map<string, seq<Event>>, j: string): seq<Event> {
    if j in roots then roots[j] else []
  }

  function OrderKeys(cs: seq<Chain>): seq<string> {
    seq(|cs|, i requires 0 <= i < |cs| => OrderKey(cs[i]))
  }

  /** Position (n, k) has been visited: its node is finished, or it is the
      current node and the walk is past k. */
  ghost predicate Done(d: Document, f: set<string>, cur: string, i: int, n: string, k: int) {
    At(d, n, k) && (n in f || (n == cur && k < i))
  }

  ghost function DoneJournals(d: Document, f: set<string>, cur: string, i: int): set<string> {
    set n, k | n in d.chains && 0 <= k < |d.chains[n]|
               && (n in f || (n == cur && k < i)) :: d.chains[n][k].cursor.journalId
  }

  ghost function DoneContinuations(d: Document, f: set<string>, cur: string, i: int): set<string> {
    set n, k | n in d.chains && 0 <= k < |d.chains[n]| && (n in f || (n == cur && k < i)) && Repeated(d.chains[n], k)
      :: d.chains[n][k].cursor.journalId
  }

  /** The checks on one chain, against the state the document found. */
  ghost predicate AdmissibleWith(prior: map<string, Chain>, order: seq<string>, d: Document, n: string, k: int)
    requires At(d, n, k)
  {
    var c := ChainAt(d, n, k);
    && c.nodeId == n && ValidChain(c) && ContinuationOk(d.handoffs, n, d.chains[n], k)
    && (k < |order| ==> order[k] == OrderKey(c))
    && (c.cursor.journalId in prior ==> Continues(prior[c.cursor.journalId], c))
    && (c.cursor.journalId !in prior ==> c.start.sequence == 0)
  }

  ghost predicate Admissible(prior: map<string, Chain>, orders: map<string, seq<string>>, d: Document, n: string,
                             k: int)
    requires At(d, n, k)
  {
    AdmissibleWith(prior, OrderOf(orders, n), d, n, k)
  }

  ghost predicate Checked(prior: map<string, Chain>, orders: map<string, seq<string>>, d: Document,
                          f: set<string>, cur: string, i: int)
  {
    && (forall n, k :: Done(d, f, cur, i, n, k) ==> Admissible(prior, orders, d, n, k))
    && (forall n, k, m, l ::
          (Done(d, f, cur, i, n, k) && Done(d, f, cur, i, m, l) && JournalAt(d, n, k) == JournalAt(d, m, l)) ==>
            n == m && k == l)
  }

  /** The maps hold the old entries overwritten by those of visited chains. */
  ghost predicate Recorded(p0: map<string, Chain>, p1: map<string, Chain>, d: Document, f: set<string>, cur: string,
                           i: int)
  {
    && p1.Keys == p0.Keys + DoneJournals(d, f, cur, i)
    && (forall n, k :: Done(d, f, cur, i, n, k) ==>
                         JournalAt(d, n, k) in p1 && p1[JournalAt(d, n, k)] == Strip(ChainAt(d, n, k)))
    && (forall j :: j in p0 && j !in DoneJournals(d, f, cur, i) ==> j in p1 && p1[j] == p0[j])
  }

  ghost predicate Hashed(r0: map<string, seq<Event>>, r1: map<string, seq<Event>>, d: Document, f: set<string>,
                         cur: string, i: int)
  {
    && r1.Keys == r0.Keys + DoneJournals(d, f, cur, i)
    && (forall n, k :: Done(d, f, cur, i, n, k) ==>

                         && JournalAt(d, n, k) in r1
                         && r1[JournalAt(d, n, k)] == RootOf(r0, JournalAt(d, n, k)) + ChainAt(d, n, k).events)
    && (forall j :: j in r0 && j !in DoneJournals(d, f, cur, i) ==> j in r1 && r1[j] == r0[j])
  }

  /** A node's remembered order after `i` of its chains. */
  function MergedOrder(o: seq<string>, cs: seq<Chain>, i: nat): seq<string>
    requires i <= |cs|
  {
    if i <= |o| then o else o + OrderKeys(cs)[|o|..i]
  }

  ghost function OrderAfter(o: seq<string>, d: Document, f: set<string>, cur: string, i: nat, n: string): seq<string> {
    if n in d.chains && n in f then MergedOrder(o, d.chains[n], |d.chains[n]|)
    else if n in d.chains && n == cur && i <= |d.chains[n]| then MergedOrder(o, d.chains[n], i)
    else o
  }

  ghost predicate Ordered(o0: map<string, seq<string>>, o1: map<string, seq<string>>, d: Document, f: set<string>,
                          cur: string, i: nat)
  {
    forall n {:trigger OrderOf(o1, n)} :: OrderOf(o1, n) == OrderAfter(OrderOf(o0, n), d, f, cur, i, n)
  }

  // ---------------------------------------------------------------------------
  // Bookkeeping of the visited region

  lemma DoneStep(d: Document, f: set<string>, cur: string, i: nat)
    requires At(d, cur, i) && cur !in f
    ensures forall n, k :: Done(d, f, cur, i + 1, n, k) <==> Done(d, f, cur, i, n, k) || (n == cur && k == i)
    ensures DoneJournals(d, f, cur, i + 1) == DoneJournals(d, f, cur, i) + {JournalAt(d, cur, i)}
    ensures DoneContinuations(d, f, cur, i + 1) ==
            DoneContinuations(d, f, cur, i) + (if Repeated(d.chains[cur], i) then {JournalAt(d, cur, i)} else {})
  {
    assert At(d, cur, i);
    forall j | j in DoneJournals(d, f, cur, i + 1) ensures j in DoneJournals(d, f, cur, i) + {JournalAt(d, cur, i)} {
      var n, k :| n in d.chains && 0 <= k < |d.chains[n]| && (n in f || (n == cur && k < i + 1))
                  && d.chains[n][k].cursor.journalId == j;
    }
  }

  lemma DoneNode(d: Document, f: set<string>, cur: string)
    requires cur in d.chains && cur !in f
    ensures forall n, k :: Done(d, f + {cur}, cur, 0, n, k) <==> Done(d, f, cur, |d.chains[cur]|, n, k)
    ensures DoneJournals(d, f + {cur}, cur, 0) == DoneJournals(d, f, cur, |d.chains[cur]|)
    ensures DoneContinuations(d, f + {cur}, cur, 0) == DoneContinuations(d, f, cur, |d.chains[cur]|)
  {}

  lemma DoneStart(d: Document, f: set<string>, c0: string, c1: string)
    ensures forall n, k :: Done(d, f, c0, 0, n, k) <==> Done(d, f, c1, 0, n, k)
    ensures DoneJournals(d, f, c0, 0) == DoneJournals(d, f, c1, 0)
    ensures DoneContinuations(d, f, c0, 0) == DoneContinuations(d, f, c1, 0)
  {}

  lemma DoneAll(d: Document, cur: string)
    ensures forall n, k :: Done(d, d.chains.Keys, cur, 0, n, k) <==> At(d, n, k)
    ensures DoneJournals(d, d.chains.Keys, cur, 0) == Journals(d)
    ensures DoneContinuations(d, d.chains.Keys, cur, 0) == Continuations(d)
  {
    forall j | j in Continuations(d) ensures j in DoneContinuations(d, d.chains.Keys, cur, 0) {
      var n :| n in d.chains && j in NodeContinuations(d.chains[n]);
      var k :| 0 <= k < |d.chains[n]| && Repeated(d.chains[n], k) && d.chains[n][k].cursor.journalId == j;
    }
    forall j | j in DoneContinuations(d, d.chains.Keys, cur, 0) ensures j in Continuations(d) {
      var n, k :| n in d.chains && 0 <= k < |d.chains[n]| && Repeated(d.chains[n], k)
                  && d.chains[n][k].cursor.journalId == j;
      assert j in NodeContinuations(d.chains[n]);
    }
  }

  lemma CheckedStep(p0: map<string, Chain>, o0: map<string, seq<string>>, d: Document, f: set<string>, cur: string,
                    i: nat)
    requires Checked(p0, o0, d, f, cur, i) && At(d, cur, i) && cur !in f
    requires Admissible(p0, o0, d, cur, i) && JournalAt(d, cur, i) !in DoneJournals(d, f, cur, i)
    ensures Checked(p0, o0, d, f, cur, i + 1)
  {}

  lemma RecordedStep(p0: map<string, Chain>, p1: map<string, Chain>, d: Document, f: set<string>, cur: string, i: nat)
    requires Recorded(p0, p1, d, f, cur, i) && At(d, cur, i) && cur !in f
    requires JournalAt(d, cur, i) !in DoneJournals(d, f, cur, i)
    ensures Recorded(p0, p1[JournalAt(d, cur, i) := Strip(ChainAt(d, cur, i))], d, f, cur, i + 1)
  {}

  lemma HashedStep(r0: map<string, seq<Event>>, r1: map<string, seq<Event>>, d: Document, f: set<string>, cur: string,
                   i: nat)
    requires Hashed(r0, r1, d, f, cur, i) && At(d, cur, i) && cur !in f
    requires JournalAt(d, cur, i) !in DoneJournals(d, f, cur, i)
    ensures var j := JournalAt(d, cur, i);
            Hashed(r0, r1[j := RootOf(r1, j) + ChainAt(d, cur, i).events], d, f, cur, i + 1)
  {}

  lemma MergedOrderStep(o: seq<string>, cs: seq<Chain>, i: nat)
    requires i < |cs|
    ensures i < |MergedOrder(o, cs, i)| <==> i < |o|
    ensures MergedOrder(o, cs, i + 1) ==
            if i < |o| then MergedOrder(o, cs, i) else MergedOrder(o, cs, i) + [OrderKey(cs[i])]
  {}

  lemma OrderedStep(o0: map<string, seq<string>>, o1: map<string, seq<string>>, o2: map<string, seq<string>>,
                    d: Document, f: set<string>, cur: string, i: nat)
    requires Ordered(o0, o1, d, f, cur, i) && At(d, cur, i) && cur !in f
    requires o2 == if i < |OrderOf(o1, cur)| then o1 else o1[cur := OrderOf(o1, cur) + [OrderKey(ChainAt(d, cur, i))]]
    ensures Ordered(o0, o2, d, f, cur, i + 1)
  {
    MergedOrderStep(OrderOf(o0, cur), d.chains[cur], i);
    forall n ensures n != cur ==> OrderOf(o2, n) == OrderOf(o1, n) {}
  }

  /** The three maps of the verifier while it walks a document. */
  datatype Maps = Maps(prior: map<string, Chain>, orders: map<string, seq<string>>, roots: map<string, seq<Event>>)

  ghost predicate Progress(m0: Maps, m1: Maps, d: Document, f: set<string>, cur: string, i: nat) {
    && Checked(m0.prior, m0.orders, d, f, cur, i)
    && Recorded(m0.prior, m1.prior, d, f, cur, i)
    && Hashed(m0.roots, m1.roots, d, f, cur, i)
    && Ordered(m0.orders, m1.orders, d, f, cur, i)
  }

  function AppendedOrder(orders: map<string, seq<string>>, n: string, i: nat, c: Chain): map<string, seq<string>> {
    if i < |OrderOf(orders, n)| then orders else orders[n := OrderOf(orders, n) + [OrderKey(c)]]
  }

  /** The maps after one more admitted chain. */
  function Admitted(m: Maps, n: string, i: nat, c: Chain): Maps {
    var j := c.cursor.journalId;
    Maps(m.prior[j := Strip(c)], AppendedOrder(m.orders, n, i, c), m.roots[j := RootOf(m.roots, j) + c.events])
  }

  /** Entries written for other chains of the same document do not disturb the
      checks on this one. */
  lemma ProgressLookup(m0: Maps, m1: Maps, d: Document, f: set<string>, cur: string, i: nat)
    requires Progress(m0, m1, d, f, cur, i) && At(d, cur, i) && cur !in f
    requires JournalAt(d, cur, i) !in DoneJournals(d, f, cur, i)
    ensures AdmissibleWith(m1.prior, OrderOf(m1.orders, cur), d, cur, i) == Admissible(m0.prior, m0.orders, d, cur, i)
  {}

  lemma ProgressStep(m0: Maps, m1: Maps, d: Document, f: set<string>, cur: string, i: nat)
    requires Progress(m0, m1, d, f, cur, i) && At(d, cur, i) && cur !in f
    requires JournalAt(d, cur, i) !in DoneJournals(d, f, cur, i) && Admissible(m0.prior, m0.orders, d, cur, i)
    ensures Progress(m0, Admitted(m1, cur, i, ChainAt(d, cur, i)), d, f, cur, i + 1)
  {
    CheckedStep(m0.prior, m0.orders, d, f, cur, i);
    RecordedStep(m0.prior, m1.prior, d, f, cur, i);
    HashedStep(m0.roots, m1.roots, d, f, cur, i);
    OrderedStep(m0.orders, m1.orders, AppendedOrder(m1.orders, cur, i, ChainAt(d, cur, i)), d, f, cur, i);
  }

  lemma ProgressStart(m: Maps, d: Document, cur: string)
    ensures Progress(m, m, d, {}, cur, 0)
    ensures DoneJournals(d, {}, cur, 0) == {} && DoneContinuations(d, {}, cur, 0) == {}
  {}

  lemma ProgressSwitch(m0: Maps, m1: Maps, d: Document, f: set<string>, c0: string, c1: string)
    requires Progress(m0, m1, d, f, c0, 0)
    ensures Progress(m0, m1, d, f, c1, 0)
    ensures DoneJournals(d, f, c0, 0) == DoneJournals(d, f, c1, 0)
    ensures DoneContinuations(d, f, c0, 0) == DoneContinuations(d, f, c1, 0)
  {
    DoneStart(d, f, c0, c1);
  }

  lemma ProgressOrder(m0: Maps, m1: Maps, d: Document, f: set<string>, cur: string)
    requires Progress(m0, m1, d, f, cur, 0) && cur !in f
    ensures OrderOf(m1.orders, cur) == OrderOf(m0.orders, cur)
  {}

  lemma ProgressChecked(m0: Maps, m1: Maps, d: Document, f: set<string>, cur: string, i: nat)
    requires Progress(m0, m1, d, f, cur, i)
    ensures Checked(m0.prior, m0.orders, d, f, cur, i)
  {}

  lemma ProgressNode(m0: Maps, m1: Maps, d: Document, f: set<string>, cur: string)
    requires cur in d.chains && cur !in f && Progress(m0, m1, d, f, cur, |d.chains[cur]|)
    ensures Progress(m0, m1, d, f + {cur}, cur, 0)
  {
    DoneNode(d, f, cur);
  }

  /** A chain that fails its checks, or repeats a journal, spoils the document. */
  lemma CheckedNeeds(m0: Maps, d: Document, f: set<string>, cur: string, i: nat, g: set<string>)
    requires At(d, cur, i) && cur in g && cur !in f && f <= g
    requires Checked(m0.prior, m0.orders, d, g, cur, 0)
    ensures Admissible(m0.prior, m0.orders, d, cur, i) && JournalAt(d, cur, i) !in DoneJournals(d, f, cur, i)
  {
    assert Done(d, g, cur, 0, cur, i);
    if JournalAt(d, cur, i) in DoneJournals(d, f, cur, i) {
      var n, k :| n in d.chains && 0 <= k < |d.chains[n]| && (n in f || (n == cur && k < i))
                  && d.chains[n][k].cursor.journalId == JournalAt(d, cur, i);
      assert Done(d, g, cur, 0, n, k);
    }
  }

  /** The maps agree with the last accepted document. */
  ghost predicate Mirrors(m: Maps, p: Document) {
    && m.prior.Keys == Journals(p)
    && (forall n, i :: At(p, n, i) ==>
                         JournalAt(p, n, i) in m.prior && m.prior[JournalAt(p, n, i)] == Strip(ChainAt(p, n, i)))
    && (forall n {:trigger OrderOf(m.orders, n)} ::
          OrderOf(m.orders, n) == if n in p.chains then OrderKeys(p.chains[n]) else [])
  }

  ghost predicate RootsMirror(m: Maps, docs: seq<Document>) {
    m.roots.Keys == Journals(Previous(docs)) && forall j :: j in m.roots ==> m.roots[j] == History(docs, j)
  }

  predicate NodesOk(id: Identity, m: Maps, d: Document) {
    forall n :: n in d.chains ==> n in id.members && |OrderOf(m.orders, n)| <= |d.chains[n]|
  }

  lemma AdmissibleMeans(id: Identity, m: Maps, p: Document, d: Document, n: string, k: int)
    requires Mirrors(m, p) && At(d, n, k) && Admissible(m.prior, m.orders, d, n, k)
    ensures ChainOk(id, d, n, k)
    ensures n in p.chains && k < |p.chains[n]| ==> OrderKey(p.chains[n][k]) == OrderKey(d.chains[n][k])
    ensures forall q, l :: At(p, q, l) && JournalAt(p, q, l) == JournalAt(d, n, k) ==>
                             Continues(ChainAt(p, q, l), ChainAt(d, n, k))
    ensures JournalAt(d, n, k) !in Journals(p) ==> ChainAt(d, n, k).start.sequence == 0
  {}

  lemma AdmissibleFrom(id: Identity, m: Maps, p: Document, d: Document, n: string, k: int)
    requires Mirrors(m, p) && At(d, n, k) && ChainsOk(id, d) && OrdersKept(p, d) && Linked(p, d)
    ensures Admissible(m.prior, m.orders, d, n, k)
  {
    assert ChainOk(id, d, n, k);
    var c := ChainAt(d, n, k);
    if c.cursor.journalId in m.prior {
      var q, l :| q in p.chains && 0 <= l < |p.chains[q]| && p.chains[q][l].cursor.journalId == c.cursor.journalId;
      assert At(p, q, l);
      assert Continues(ChainAt(p, q, l), c);
    }
  }

  /** The walk over all chains decides exactly the chain part of acceptance. */
  lemma CheckedAll(id: Identity, m: Maps, p: Document, d: Document, cur: string)
    requires Mirrors(m, p)
    ensures NodesOk(id, m, d) && Checked(m.prior, m.orders, d, d.chains.Keys, cur, 0)
       <==> ChainsOk(id, d) && OrdersKept(p, d) && Linked(p, d)
  {
    DoneAll(d, cur);
    if NodesOk(id, m, d) && Checked(m.prior, m.orders, d, d.chains.Keys, cur, 0) {
      forall n, k | At(d, n, k)
        ensures ChainOk(id, d, n, k)
        ensures n in p.chains && k < |p.chains[n]| ==> OrderKey(p.chains[n][k]) == OrderKey(d.chains[n][k])
        ensures forall q, l :: At(p, q, l) && JournalAt(p, q, l) == JournalAt(d, n, k) ==>
                                 Continues(ChainAt(p, q, l), ChainAt(d, n, k))
        ensures JournalAt(d, n, k) !in Journals(p) ==> ChainAt(d, n, k).start.sequence == 0
      {
        assert Done(d, d.chains.Keys, cur, 0, n, k);
        AdmissibleMeans(id, m, p, d, n, k);
      }
      forall n | n in d.chains && n in p.chains
        ensures |p.chains[n]| <= |d.chains[n]|
                && forall i :: 0 <= i < |p.chains[n]| ==> OrderKey(p.chains[n][i]) == OrderKey(d.chains[n][i])
      {
        assert |OrderOf(m.orders, n)| <= |d.chains[n]|;
        forall i | 0 <= i < |p.chains[n]| ensures OrderKey(p.chains[n][i]) == OrderKey(d.chains[n][i]) {
          assert At(d, n, i);
        }
      }
    }
    if ChainsOk(id, d) && OrdersKept(p, d) && Linked(p, d) {
      forall n, k | Done(d, d.chains.Keys, cur, 0, n, k) ensures Admissible(m.prior, m.orders, d, n, k) {
        AdmissibleFrom(id, m, p, d, n, k);
      }
    }
  }

  /** What the hashes hold once the whole document was walked. */
  lemma HashedAll(h: Hash, id: Identity, docs: seq<Document>, d: Document, m0: Maps, m1: Maps, cur: string)
    requires Replays(h, id, docs) && RootsMirror(m0, docs)
    requires Hashed(m0.roots, m1.roots, d, d.chains.Keys, cur, 0) && UniqueJournals(d)
    ensures m1.roots.Keys == m0.roots.Keys + Journals(d)
    ensures forall j :: j in m1.roots ==> m1.roots[j] == History(docs + [d], j)
  {
    DoneAll(d, cur);
    ReplayComplete(h, id, docs);
    forall j | j in m1.roots ensures m1.roots[j] == History(docs + [d], j) {
      HistorySnoc(docs, d, j);
      if j in Journals(d) {
        var n, k :| n in d.chains && 0 <= k < |d.chains[n]| && d.chains[n][k].cursor.journalId == j;
        assert Done(d, d.chains.Keys, cur, 0, n, k);
        EventsAt(d, n, k);
      }
    }
  }

  lemma MergedWhole(m0: Maps, m1: Maps, p: Document, d: Document, cur: string)
    requires Mirrors(m0, p) && Ordered(m0.orders, m1.orders, d, d.chains.Keys, cur, 0)
    requires OrdersKept(p, d) && Journals(p) <= Journals(d)
    requires forall n :: n in p.chains && p.chains[n] != [] ==> n in d.chains
    ensures forall n {:trigger OrderOf(m1.orders, n)} ::
              OrderOf(m1.orders, n) == if n in d.chains then OrderKeys(d.chains[n]) else []
  {}

  /** Comparing two counts tells whether an earlier journal is missing. */
  lemma NothingLost(before: set<string>, seen: set<string>, prior: map<string, Chain>)
    requires prior.Keys == before + seen
    ensures before <= seen <==> |seen| == |prior|
  {
    assert |prior| == |prior.Keys|;
    SubsetSmaller(seen, prior.Keys);
    assert before <= seen <==> prior.Keys == seen;
  }

  predicate RootsMatch(h: Hash, roots: map<string, seq<Event>>, hs: seq<Handoff>) {
    forall k :: 0 <= k < |hs| ==> hs[k].oldJournalId in roots && h(roots[hs[k].oldJournalId]) == hs[k].oldEvents
  }

  /** The chain part of acceptance and a complete walk. */
  ghost predicate Walked(h: Hash, id: Identity, docs: seq<Document>, d: Document, m0: Maps, m1: Maps) {
    && Replays(h, id, docs) && Mirrors(m0, Previous(docs)) && RootsMirror(m0, docs)
    && ChainsOk(id, d) && OrdersKept(Previous(docs), d) && Linked(Previous(docs), d)
    && Progress(m0, m1, d, d.chains.Keys, "", 0)
  }

  lemma WalkedRoots(h: Hash, id: Identity, docs: seq<Document>, d: Document, m0: Maps, m1: Maps)
    requires Walked(h, id, docs, d, m0, m1)
    ensures m1.prior.Keys == Journals(Previous(docs)) + Journals(d) == m1.roots.Keys
    ensures RootsOk(h, docs + [d], d) ==> RootsMatch(h, m1.roots, d.handoffs)
    ensures RootsMatch(h, m1.roots, d.handoffs) && Journals(Previous(docs)) <= Journals(d) ==> RootsOk(h, docs + [d], d)
  {
    HashedAll(h, id, docs, d, m0, m1, "");
    DoneAll(d, "");
    assert Journals(Previous(docs)) <= Journals(d) ==> m1.roots.Keys == Journals(d);
  }

  /** Nodes and journals of the last document are found again. */
  lemma AcceptedKeeps(h: Hash, id: Identity, docs: seq<Document>, d: Document)
    requires Replays(h, id, docs) && AcceptsNext(h, id, docs, d)
    ensures Journals(Previous(docs)) <= Journals(d)
    ensures forall n :: n in Previous(docs).chains && Previous(docs).chains[n] != [] ==> n in d.chains
  {
    hide Replays, ChainsOk, RootsOk, Linked, OrdersKept, Continuations, Journals;
    PreviousOk(h, id, docs, |docs|);
    assert docs[..|docs|] == docs;
    AcceptedAligned(h, id, docs, d);
    forall n | n in Previous(docs).chains && Previous(docs).chains[n] != [] ensures n in d.chains {
      assert At(Previous(docs), n, 0);
    }
  }

  lemma WalkedPrior(m0: Maps, m1: Maps, p: Document, d: Document)
    requires Mirrors(m0, p) && Recorded(m0.prior, m1.prior, d, d.chains.Keys, "", 0) && Journals(p) <= Journals(d)
    ensures m1.prior.Keys == Journals(d)
    ensures forall n, i :: At(d, n, i) ==>
                             JournalAt(d, n, i) in m1.prior && m1.prior[JournalAt(d, n, i)] == Strip(ChainAt(d, n, i))
  {}

  /** After an accepted document the maps mirror it. */
  lemma WalkedMirrors(h: Hash, id: Identity, docs: seq<Document>, d: Document, m0: Maps, m1: Maps)
    requires Walked(h, id, docs, d, m0, m1) && AcceptsNext(h, id, docs, d)
    ensures Mirrors(m1, d) && RootsMirror(m1, docs + [d])
  {
    assert UniqueJournals(d) && m0.roots.Keys == Journals(Previous(docs));
    assert Previous(docs + [d]) == d;
    hide Replays, ChainsOk, Linked, OrdersKept, AcceptsNext, Journals, Recorded, Hashed, Ordered, UniqueJournals;
    AcceptedKeeps(h, id, docs, d);
    HashedAll(h, id, docs, d, m0, m1, "");
    WalkedPrior(m0, m1, Previous(docs), d);
    MergedWhole(m0, m1, Previous(docs), d, "");
  }

  class Verifier {
    const id: Identity
    const hash: Hash
    var nextGeneration: nat
    var prior: map<string, Chain>
    var orders: map<string, seq<string>>
    var handoffs: seq<Handoff>
    var versionThreeSeen: bool
    var eventRoots: map<string, seq<Event>>
    ghost var docs: seq<Document>

    /** The fields are what the accepted documents determine. */
    ghost predicate Valid()
      reads this
    {
      && Replays(hash, id, docs)
      && nextGeneration == |docs| && versionThreeSeen == (Previous(docs).version == 3)
      && handoffs == Previous(docs).handoffs
      && Mirrors(State(), Previous(docs)) && RootsMirror(State(), docs)
    }

    constructor (id: Identity, hash: Hash)
      ensures Valid() && docs == [] && this.id == id && this.hash == hash
    {
      this.id, this.hash := id, hash;
      nextGeneration, prior, orders, handoffs, versionThreeSeen, eventRoots := 0, map[], map[], [], false, map[];
      docs := [];
    }

    ghost function State(): Maps
      reads this
    {
      Maps(prior, orders, eventRoots)
    }

    /** One chain of one node: `seen` are the journals met so far, `incarnations`
        those of the node's earlier chains. */
    method AdmitChain(d: Document, node: string, i: nat, seen: set<string>, incarnations: set<string>)
      returns (ok: bool, repeated: bool)
      requires At(d, node, i)
      requires incarnations == set k | 0 <= k < i :: d.chains[node][k].incarnation
      modifies this`prior, this`orders, this`eventRoots
      ensures ok <==> JournalAt(d, node, i) !in seen
                      && AdmissibleWith(old(prior), OrderOf(old(orders), node), d, node, i)
      ensures ok ==> State() == Admitted(old(State()), node, i, ChainAt(d, node, i))
      ensures ok ==> repeated == Repeated(d.chains[node], i)
    {
      var cs := d.chains[node];
      var c := cs[i];
      var j := c.cursor.journalId;
      repeated := c.incarnation in incarnations;
      assert repeated == Repeated(cs, i);
      var valid := ValidStoredChain(c);
      if c.nodeId != node || !valid || j in seen {
        return false, repeated;
      }
      if repeated {
        if i == 0 || cs[i - 1].incarnation != c.incarnation {
          return false, repeated;
        }
        var matched := FindHandoff(d.handoffs, node, cs[i - 1], c);
        if !matched {
          return false, repeated;
        }
      }
      if i < |OrderOf(orders, node)| {
        if OrderOf(orders, node)[i] != OrderKey(c) {
          return false, repeated;
        }
      } else {
        orders := orders[node := OrderOf(orders, node) + [OrderKey(c)]];
      }
      if j in prior {
        if !Continues(prior[j], c) {
          return false, repeated;
        }
      } else if c.start.sequence != 0 {
        return false, repeated;
      }
      prior := prior[j := Strip(c)];
      eventRoots := eventRoots[j := RootOf(eventRoots, j) + c.events];
      ok := true;
    }

    /** All chains of one node; `f` are the nodes already finished. */
    method VerifyNode(d: Document, node: string, seen0: set<string>, used0: set<string>, ghost m0: Maps,
                      ghost f: set<string>)
      returns (ok: bool, seen: set<string>, used: set<string>)
      requires node in d.chains && node !in f && f <= d.chains.Keys
      requires Progress(m0, State(), d, f, node, 0)
      requires seen0 == DoneJournals(d, f, node, 0) && used0 == DoneContinuations(d, f, node, 0)
      modifies this`prior, this`orders, this`eventRoots
      ensures ok ==> node in id.members && |OrderOf(m0.orders, node)| <= |d.chains[node]|
      ensures ok ==> Progress(m0, State(), d, f + {node}, node, 0)
      ensures ok ==> seen == DoneJournals(d, f + {node}, node, 0) && used == DoneContinuations(d, f + {node}, node, 0)
      ensures !ok ==> !NodesOk(id, m0, d) || !Checked(m0.prior, m0.orders, d, d.chains.Keys, node, 0)
    {
      hide Progress, DoneJournals, DoneContinuations, Checked;
      seen, used := seen0, used0;
      ProgressOrder(m0, State(), d, f, node);
      if node !in id.members || |d.chains[node]| < |OrderOf(orders, node)| {
        return false, seen, used;
      }
      var incarnations: set<string> := {};
      for i := 0 to |d.chains[node]|
        invariant Progress(m0, State(), d, f, node, i)
        invariant seen == DoneJournals(d, f, node, i) && used == DoneContinuations(d, f, node, i)
        invariant incarnations == set k | 0 <= k < i :: d.chains[node][k].incarnation
      {
        ghost var m1 := State();
        if JournalAt(d, node, i) !in seen {
          ProgressLookup(m0, m1, d, f, node, i);
        }
        var admitted, repeated := AdmitChain(d, node, i, seen, incarnations);
        if !admitted {
          if Checked(m0.prior, m0.orders, d, d.chains.Keys, node, 0) {
            CheckedNeeds(m0, d, f, node, i, d.chains.Keys);
          }
          return false, seen, used;
        }
        ProgressStep(m0, m1, d, f, node, i);
        DoneStep(d, f, node, i);
        var j := d.chains[node][i].cursor.journalId;
        seen := seen + {j};
        if repeated {
          used := used + {j};
        }
        incarnations := incarnations + {d.chains[node][i].incarnation};
      }
      ProgressNode(m0, State(), d, f, node);
      DoneNode(d, f, node);
      ok := true;
    }

    /** The walk over every node, in whatever order the map yields them. */
    method VerifyChains(d: Document) returns (ok: bool, seen: set<string>, used: set<string>)
      requires Valid()
      modifies this`prior, this`orders, this`eventRoots
      ensures ok <==> ChainsOk(id, d) && OrdersKept(Previous(docs), d) && Linked(Previous(docs), d)
      ensures ok ==> Progress(old(State()), State(), d, d.chains.Keys, "", 0)
      ensures ok ==> seen == Journals(d) && used == Continuations(d)
    {
      hide Progress, DoneJournals, DoneContinuations, Checked, Mirrors, ChainsOk, OrdersKept, Linked, RootsMirror;
      ghost var m0 := State();
      seen, used := {}, {};
      var todo := d.chains.Keys;
      ghost var f: set<string> := {};
      ProgressStart(m0, d, "");
      CheckedAll(id, m0, Previous(docs), d, "");
      while todo != {}
        invariant todo !! f && todo + f == d.chains.Keys
        invariant Progress(m0, State(), d, f, "", 0)
        invariant seen == DoneJournals(d, f, "", 0) && used == DoneContinuations(d, f, "", 0)
        invariant forall n :: n in f ==> n in id.members && |OrderOf(m0.orders, n)| <= |d.chains[n]|
        decreases |todo|
      {
        var node :| node in todo;
        ProgressSwitch(m0, State(), d, f, "", node);
        ok, seen, used := VerifyNode(d, node, seen, used, m0, f);
        if !ok {
          CheckedAll(id, m0, Previous(docs), d, node);
          return;
        }
        f := f + {node};
        todo := todo - {node};
        ProgressSwitch(m0, State(), d, f, node, "");
      }
      assert f == d.chains.Keys;
      ProgressChecked(m0, State(), d, f, "", 0);
      DoneAll(d, "");
      ok := true;
    }

    /** Every handoff's retired history hashes to what the handoff recorded. */
    method RootsHold(d: Document) returns (ok: bool)
      ensures ok <==> RootsMatch(hash, eventRoots, d.handoffs)
    {
      for k := 0 to |d.handoffs|
        invariant RootsMatch(hash, eventRoots, d.handoffs[..k])
      {
        assert d.handoffs[..k + 1] == d.handoffs[..k] + [d.handoffs[k]];
        var retired := d.handoffs[k].oldJournalId;
        if retired !in eventRoots || hash(eventRoots[retired]) != d.handoffs[k].oldEvents {
          return false;
        }
      }
      assert d.handoffs[..|d.handoffs|] == d.handoffs;
      return true;
    }

    /** The checks on the header and the handoff list. */
    method HeaderAccepted(d: Document) returns (ok: bool)
      requires Valid()
      ensures ok <==> HeaderOk(id, docs, d) && HandoffListOk(Previous(docs), d)
    {
      hide Mirrors, RootsMirror, Replays, ValidHandoff;
      if (d.version != 2 && d.version != 3) || (versionThreeSeen && d.version != 3) ||
         d.generation != nextGeneration || d.environment != id.environment || d.cluster != id.cluster ||
         d.members != id.members || !d.chainsPresent {
        return false;
      }
      if (d.version == 2 && d.handoffs != []) || |d.handoffs| < |handoffs| || d.handoffs[..|handoffs|] != handoffs {
        return false;
      }
      ok := NewHandoffsValid(d, |handoffs|);
    }

    /** verify: accepts exactly the documents that extend what was accepted
        before, and then remembers exactly what the longer run determines. */
    method Verify(d: Document) returns (ok: bool)
      requires Valid()
      modifies this
      ensures ok <==> AcceptsNext(hash, id, old(docs), d)
      ensures ok ==> Valid() && docs == old(docs) + [d]
    {
      hide Progress, Mirrors, RootsMirror, Replays, ChainsOk, OrdersKept, Linked, RootsOk, RootsMatch, Continuations,
        Journals;
      hide HeaderOk, HandoffListOk;
      var headed := HeaderAccepted(d);
      if !headed {
        return false;
      }
      ghost var m0 := State();
      var walked, seen, used := VerifyChains(d);
      if !walked || |used| != |d.handoffs| {
        return false;
      }
      WalkedRoots(hash, id, docs, d, m0, State());
      var rooted := RootsHold(d);
      if !rooted {
        return false;
      }
      NothingLost(Journals(Previous(docs)), seen, prior);
      if |seen| != |prior| {
        return false;
      }
      WalkedMirrors(hash, id, docs, d, m0, State());
      ReplaysSnoc(hash, id, docs, d);
      HeaderNext(id, docs, d);
      assert handoffs == Previous(docs).handoffs;
      handoffs := handoffs + d.handoffs[|handoffs|..];
      versionThreeSeen := d.version == 3;
      nextGeneration := nextGeneration + 1;
      docs := docs + [d];
      ok := true;
    }
  }

  lemma HeaderNext(id: Identity, docs: seq<Document>, d: Document)
    requires HeaderOk(id, docs, d) && HandoffListOk(Previous(docs), d)
    ensures Previous(docs + [d]) == d && |Previous(docs).handoffs| <= |d.handoffs|
    ensures Previous(docs).handoffs + d.handoffs[|Previous(docs).handoffs|..] == d.handoffs
  {}

  method NewHandoffsValid(d: Document, from: nat) returns (ok: bool)
    requires from <= |d.handoffs|
    ensures ok <==> forall k :: from <= k < |d.handoffs| ==> ValidHandoff(d.handoffs[k], d)
  {
    for k := from to |d.handoffs|
      invariant forall m :: from <= m < k ==> ValidHandoff(d.handoffs[m], d)
    {
      if !ValidHandoff(d.handoffs[k], d) {
        return false;
      }
    }
    return true;
  }

  method FindHandoff(hs: seq<Handoff>, node: string, before: Chain, after: Chain) returns (matched: bool)
    ensures matched <==> exists k :: 0 <= k < |hs| && HandoffMatches(hs[k], node, before, after)
  {
    for k := 0 to |hs|
      invariant forall m :: 0 <= m < k ==> !HandoffMatches(hs[m], node, before, after)
    {
      if HandoffMatches(hs[k], node, before, after) {
        return true;
      }
    }
    return false;
  }
}
