/** Closing a segment and continuing in an empty manifest changes no history and
    is always accepted. */
module DurableRollover {
  import opened DurableDocument

  lemma RolledPositions(d: Document)
    ensures Rolled(d).chains.Keys == d.chains.Keys
    ensures forall n, i :: At(Rolled(d), n, i) <==> At(d, n, i)
    ensures forall n, i :: At(d, n, i) ==> ChainAt(Rolled(d), n, i) == RolledChain(ChainAt(d, n, i))
    ensures Journals(Rolled(d)) == Journals(d)
  {
    var r := Rolled(d);
    forall j | j in Journals(d) ensures j in Journals(r) {
      var n, i :| n in d.chains && 0 <= i < |d.chains[n]| && d.chains[n][i].cursor.journalId == j;
      assert r.chains[n][i].cursor.journalId == j;
    }
    forall j | j in Journals(r) ensures j in Journals(d) {
      var n, i :| n in r.chains && 0 <= i < |r.chains[n]| && r.chains[n][i].cursor.journalId == j;
      assert d.chains[n][i].cursor.journalId == j;
    }
  }

  lemma RolledUnique(d: Document)
    requires UniqueJournals(d)
    ensures UniqueJournals(Rolled(d))
  {
    RolledPositions(d);
  }

  /** Rollover changes nothing a reader can see. */
  lemma RollKeepsHistory(prefix: seq<Document>, d: Document, j: string)
    ensures History(prefix + [d] + [Rolled(d)], j) == History(prefix + [d], j)
  {}

  lemma RolledRepeated(d: Document, n: string, i: int)
    requires At(d, n, i)
    ensures At(Rolled(d), n, i) && Repeated(Rolled(d).chains[n], i) == Repeated(d.chains[n], i)
  {
    RolledPositions(d);
    assert forall k :: 0 <= k < |d.chains[n]| ==> Rolled(d).chains[n][k].incarnation == d.chains[n][k].incarnation;
  }

  lemma RolledChainOk(id: Identity, d: Document, n: string, i: int)
    requires At(d, n, i) && ChainOk(id, d, n, i)
    ensures At(Rolled(d), n, i) && ChainOk(id, Rolled(d), n, i)
  {}

  lemma RolledChainsOk(id: Identity, d: Document)
    requires ChainsOk(id, d)
    ensures ChainsOk(id, Rolled(d))
  {
    RolledPositions(d);
    RolledUnique(d);
    forall n, i | At(Rolled(d), n, i) ensures ChainOk(id, Rolled(d), n, i) {
      assert At(d, n, i);
      RolledChainOk(id, d, n, i);
    }
  }

  lemma RolledContinuations(d: Document)
    ensures Continuations(Rolled(d)) == Continuations(d)
  {
    RolledPositions(d);
    var r := Rolled(d);
    forall n | n in d.chains ensures NodeContinuations(r.chains[n]) == NodeContinuations(d.chains[n]) {
      forall i | 0 <= i < |d.chains[n]|
        ensures Repeated(r.chains[n], i) == Repeated(d.chains[n], i)
        ensures r.chains[n][i].cursor.journalId == d.chains[n][i].cursor.journalId
      {
        assert At(d, n, i);
        RolledRepeated(d, n, i);
      }
    }
  }

  lemma RolledLinked(d: Document)
    requires UniqueJournals(d)
    ensures Linked(d, Rolled(d)) && OrdersKept(d, Rolled(d))
  {
    RolledPositions(d);
    forall n, i | At(Rolled(d), n, i) ensures JournalAt(Rolled(d), n, i) in Journals(d) {
      JournalsAt(Rolled(d), n, i);
    }
    forall n, i | n in d.chains && 0 <= i < |d.chains[n]|
      ensures OrderKey(d.chains[n][i]) == OrderKey(Rolled(d).chains[n][i])
    {
      assert At(d, n, i);
    }
  }

  lemma RolledRoots(h: Hash, prefix: seq<Document>, d: Document)
    requires RootsOk(h, prefix + [d], d)
    ensures RootsOk(h, prefix + [d] + [Rolled(d)], Rolled(d))
  {
    hide EventsIn, Journals;
    RolledPositions(d);
    forall k | 0 <= k < |Rolled(d).handoffs|
      ensures Rolled(d).handoffs[k].oldJournalId in Journals(Rolled(d))
      ensures h(History(prefix + [d] + [Rolled(d)], Rolled(d).handoffs[k].oldJournalId))
           == Rolled(d).handoffs[k].oldEvents
    {
      RollKeepsHistory(prefix, d, d.handoffs[k].oldJournalId);
    }
  }

  /** The manifest after a rollover is accepted behind its own segment. */
  lemma RollAccepted(h: Hash, id: Identity, prefix: seq<Document>, d: Document)
    requires AcceptsNext(h, id, prefix, d)
    ensures AcceptsNext(h, id, prefix + [d], Rolled(d))
  {
    hide ChainsOk, Continuations, RootsOk, Linked, OrdersKept, Journals;
    assert UniqueJournals(d) by { ChainsOkUnique(id, d); }
    RolledChainsOk(id, d);
    RolledContinuations(d);
    RolledLinked(d);
    RolledRoots(h, prefix, d);
    RolledPositions(d);
    assert Previous(prefix + [d]) == d;
    assert HeaderOk(id, prefix + [d], Rolled(d)) && HandoffListOk(d, Rolled(d));
  }

  lemma ChainsOkUnique(id: Identity, d: Document)
    requires ChainsOk(id, d)
    ensures UniqueJournals(d)
  {}
}
