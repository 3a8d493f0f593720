/** The documents the durable collector writes: stored chains, handoffs, the
    rollover, and what it means for one more document to extend a retained
    prefix (cmd/halro-ha-health/durable_archive.go). */
module DurableDocument {
  import opened Basics
  import opened Transitions

  datatype Chain = Chain(nodeId: string, incarnation: string, baselineKind: BaselineKind, baselineRole: Role,
                         baselineTerm: U64, baselinePromised: U64, start: Cursor, startAt: Time,
                         cursor: Cursor, lastAt: Time, committed: U64, headDigest: string,
                         observedAt: Time, events: seq<Event>)

  datatype Handoff = Handoff(nodeId: string, incarnation: string, oldJournalId: string, oldCommitted: U64,
                             oldDigest: string, oldEvents: string, oldInventory: string,
                             newJournalId: string, newBaselineDigest: string, newInventory: string,
                             sourceNode: string, sourceInventory: string, seedManifest: string,
                             seedTerm: U64, seedIndex: U64, fencingEvidence: string,
                             retiredFrozenAt: Time, sourceFrozenAt: Time, replacementFrozenAt: Time,
                             committedAt: Time)

  /** `chainsPresent` is false for a document whose chains member is null. */
  datatype Document = Document(version: int, generation: nat, environment: string, cluster: string,
                               members: seq<string>, chainsPresent: bool, chains: map<string, seq<Chain>>,
                               handoffs: seq<Handoff>)

  /** What an archive was opened for. */
  datatype Identity = Identity(environment: string, cluster: string, members: seq<string>)

  /** SHA-256 over the encoded events of a journal; every statement holds for
      any function in its place. */
  type Hash = seq<Event> -> string

  function Baseline(c: Chain): Cursor {
    Cursor(c.cursor.journalId, 0, c.cursor.baselineDigest, c.cursor.baselineDigest,
           c.baselineRole, c.baselineTerm, c.baselinePromised)
  }

  predicate ChainHeaderOk(c: Chain) {
    && c.incarnation != "" && !c.baselineKind.OtherBaseline?
    && ValidJournalId(c.cursor.journalId) && ValidDigest(c.cursor.baselineDigest)
    && ValidDigest(c.cursor.digest) && ValidDigest(c.headDigest)
    && ValidRole(c.baselineRole) && c.baselineTerm <= c.baselinePromised
    && c.start.journalId == c.cursor.journalId && c.start.baselineDigest == c.cursor.baselineDigest
    && c.start.sequence + |c.events| == c.cursor.sequence
    && c.cursor.sequence <= c.committed && c.observedAt != ZERO_TIME
  }

  predicate ValidChain(c: Chain) {
    && ChainHeaderOk(c)
    && (c.start.sequence == 0 ==> c.start == Baseline(c) && c.startAt == ZERO_TIME)
    && Accepts(c.start, c.startAt, c.events)
    && EndCursor(c.start, c.events) == c.cursor && EndTime(c.startAt, c.events) == c.lastAt
    && (c.cursor.sequence == c.committed ==> c.cursor.digest == c.headDigest)
  }

  /** validStoredChain: one walk over the events with a running cursor. */
  method ValidStoredChain(c: Chain) returns (ok: bool)
    ensures ok <==> ValidChain(c)
  {
    if !ChainHeaderOk(c) {
      return false;
    }
    if c.start.sequence == 0 && (c.start != Baseline(c) || c.startAt != ZERO_TIME) {
      return false;
    }
    var last, previousAt := c.start, c.startAt;
    for i := 0 to |c.events|
      invariant last == CursorAt(c.start, c.events, i)
      invariant previousAt == TimeAt(c.startAt, c.events, i)
      invariant forall k :: 0 <= k < i ==> StepOk(c.start, c.startAt, c.events, k)
    {
      var event := c.events[i];
      assert Follows(last, previousAt, event) == StepOk(c.start, c.startAt, c.events, i);
      if !Follows(last, previousAt, event) {
        return false;
      }
      last := Advance(last, event);
      previousAt := event.at;
    }
    ok := last == c.cursor && c.lastAt == previousAt &&
          (c.cursor.sequence != c.committed || c.cursor.digest == c.headDigest);
  }

  predicate ValidHandoff(h: Handoff, d: Document) {
    && h.nodeId in d.members && h.sourceNode in d.members && h.nodeId != h.sourceNode
    && h.incarnation != "" && h.seedTerm > 0
    && ValidJournalId(h.oldJournalId) && ValidJournalId(h.newJournalId) && h.oldJournalId != h.newJournalId
    && ValidDigest(h.oldDigest) && ValidDigest(h.oldEvents) && ValidDigest(h.oldInventory)
    && ValidDigest(h.newBaselineDigest) && ValidDigest(h.newInventory) && ValidDigest(h.sourceInventory)
    && ValidDigest(h.seedManifest) && ValidDigest(h.fencingEvidence)
    && h.retiredFrozenAt != ZERO_TIME && h.sourceFrozenAt != ZERO_TIME && h.replacementFrozenAt != ZERO_TIME
    && h.committedAt != ZERO_TIME && h.retiredFrozenAt <= h.replacementFrozenAt
    && h.sourceFrozenAt <= h.replacementFrozenAt && h.replacementFrozenAt <= h.committedAt
  }

  // ---------------------------------------------------------------------------
  // Positions in a document

  predicate At(d: Document, n: string, i: int) {
    n in d.chains && 0 <= i < |d.chains[n]|
  }

  function ChainsOf(d: Document, n: string): seq<Chain> {
    if n in d.chains then d.chains[n] else []
  }

  function ChainAt(d: Document, n: string, i: int): Chain
    requires At(d, n, i)
  {
    d.chains[n][i]
  }

  function JournalAt(d: Document, n: string, i: int): string
    requires At(d, n, i)
  {
    d.chains[n][i].cursor.journalId
  }

  ghost function Journals(d: Document): set<string> {
    set n, i | n in d.chains && 0 <= i < |d.chains[n]| :: d.chains[n][i].cursor.journalId
  }

  ghost predicate UniqueJournals(d: Document) {
    forall n, i, m, k :: At(d, n, i) && At(d, m, k) && JournalAt(d, n, i) == JournalAt(d, m, k) ==> n == m && i == k
  }

  /** An earlier chain of the node already has this chain's incarnation. */
  ghost predicate Repeated(cs: seq<Chain>, i: int)
    requires 0 <= i < |cs|
  {
    exists k :: 0 <= k < i && cs[k].incarnation == cs[i].incarnation
  }

  predicate HandoffMatches(h: Handoff, node: string, before: Chain, after: Chain) {
    && h.nodeId == node && h.incarnation == after.incarnation
    && h.oldJournalId == before.cursor.journalId && h.newJournalId == after.cursor.journalId
    && h.newBaselineDigest == after.cursor.baselineDigest
    && after.baselineRole == Replica && after.baselineTerm == h.seedTerm && after.baselinePromised == h.seedTerm
    && before.cursor.sequence == h.oldCommitted && before.cursor.digest == h.oldDigest
    && before.committed == h.oldCommitted && before.headDigest == h.oldDigest
  }

  /** A repeated incarnation sits right behind its predecessor and is backed by
      a handoff that names both journals. */
  ghost predicate ContinuationOk(hs: seq<Handoff>, node: string, cs: seq<Chain>, i: int)
    requires 0 <= i < |cs|
  {
    Repeated(cs, i) ==>
      i > 0 && cs[i - 1].incarnation == cs[i].incarnation
      && exists k :: 0 <= k < |hs| && HandoffMatches(hs[k], node, cs[i - 1], cs[i])
  }

  ghost function NodeContinuations(cs: seq<Chain>): set<string> {
    set i | 0 <= i < |cs| && Repeated(cs, i) :: cs[i].cursor.journalId
  }

  ghost function Continuations(d: Document): set<string> {
    set n, j | n in d.chains && j in NodeContinuations(d.chains[n]) :: j
  }

  function OrderKey(c: Chain): string {
    c.incarnation + ":" + c.cursor.journalId
  }

  /** The key the verifier remembers fixes both parts, because journal
      identifiers have one length. */
  lemma OrderKeyInjective(a: Chain, b: Chain)
    requires ValidJournalId(a.cursor.journalId) && ValidJournalId(b.cursor.journalId)
    requires OrderKey(a) == OrderKey(b)
    ensures a.incarnation == b.incarnation && a.cursor.journalId == b.cursor.journalId
  {
    var ka, kb := OrderKey(a), OrderKey(b);
    assert ka[|ka| - 32..] == a.cursor.journalId && kb[|kb| - 32..] == b.cursor.journalId;
    assert ka[..|ka| - 33] == a.incarnation && kb[..|kb| - 33] == b.incarnation;
  }

  /** A chain in the next document takes up where the previous one stopped. */
  predicate Continues(p: Chain, c: Chain) {
    && c.start == p.cursor && c.startAt == p.lastAt && c.nodeId == p.nodeId
    && c.incarnation == p.incarnation && c.baselineKind == p.baselineKind
    && c.baselineRole == p.baselineRole && c.baselineTerm == p.baselineTerm
    && c.baselinePromised == p.baselinePromised
    && p.committed <= c.committed && p.observedAt <= c.observedAt
  }

  // ---------------------------------------------------------------------------
  // Histories: a journal's events over a run of documents

  ghost function EventsIn(d: Document, j: string): seq<Event> {
    if j in Journals(d) then
      var n, i :| n in d.chains && 0 <= i < |d.chains[n]| && d.chains[n][i].cursor.journalId == j;
      d.chains[n][i].events
    else []
  }

  ghost function History(docs: seq<Document>, j: string): seq<Event> {
    if docs == [] then [] else History(docs[..|docs| - 1], j) + EventsIn(docs[|docs| - 1], j)
  }

  lemma JournalsAt(d: Document, n: string, i: int)
    requires At(d, n, i)
    ensures JournalAt(d, n, i) in Journals(d)
  {}

  lemma EventsAt(d: Document, n: string, i: int)
    requires At(d, n, i) && UniqueJournals(d)
    ensures EventsIn(d, JournalAt(d, n, i)) == ChainAt(d, n, i).events
  {
    JournalsAt(d, n, i);
    var m, k :| m in d.chains && 0 <= k < |d.chains[m]| && d.chains[m][k].cursor.journalId == JournalAt(d, n, i)
                && EventsIn(d, JournalAt(d, n, i)) == d.chains[m][k].events;
    assert At(d, m, k);
  }

  lemma HistorySnoc(docs: seq<Document>, d: Document, j: string)
    ensures History(docs + [d], j) == History(docs, j) + EventsIn(d, j)
  {}

  // ---------------------------------------------------------------------------
  // One more document

  /** What precedes the first document. */
  function Blank(): Document {
    Document(2, 0, "", "", [], true, map[], [])
  }

  function Previous(prefix: seq<Document>): Document {
    if prefix == [] then Blank() else prefix[|prefix| - 1]
  }

  predicate HeaderOk(id: Identity, prefix: seq<Document>, d: Document) {
    && (d.version == 2 || d.version == 3) && (Previous(prefix).version == 3 ==> d.version == 3)
    && d.generation == |prefix| && d.environment == id.environment && d.cluster == id.cluster
    && d.members == id.members && d.chainsPresent
  }

  predicate HandoffListOk(p: Document, d: Document) {
    && (d.version == 2 ==> d.handoffs == [])
    && p.handoffs <= d.handoffs
    && forall k :: |p.handoffs| <= k < |d.handoffs| ==> ValidHandoff(d.handoffs[k], d)
  }

  ghost predicate ChainOk(id: Identity, d: Document, n: string, i: int)
    requires At(d, n, i)
  {
    && ChainAt(d, n, i).nodeId == n && ValidChain(ChainAt(d, n, i))
    && ContinuationOk(d.handoffs, n, d.chains[n], i)
  }

  ghost predicate AllValid(d: Document) {
    forall n, i :: At(d, n, i) ==> ValidChain(ChainAt(d, n, i))
  }

  ghost predicate ChainsOk(id: Identity, d: Document) {
    && (forall n :: n in d.chains ==> n in id.members)
    && (forall n, i :: At(d, n, i) ==> ChainOk(id, d, n, i))
    && UniqueJournals(d)
  }

  predicate OrdersKept(p: Document, d: Document) {
    forall n :: n in d.chains && n in p.chains ==>
                  && |p.chains[n]| <= |d.chains[n]|
                  && forall i :: 0 <= i < |p.chains[n]| ==> OrderKey(p.chains[n][i]) == OrderKey(d.chains[n][i])
  }

  /** Chains known before continue; chains seen for the first time start at
      their baseline. */
  ghost predicate Linked(p: Document, d: Document) {
    && (forall n, i, m, k :: At(d, n, i) && At(p, m, k) && JournalAt(d, n, i) == JournalAt(p, m, k) ==>
                               Continues(ChainAt(p, m, k), ChainAt(d, n, i)))
    && (forall n, i :: At(d, n, i) && JournalAt(d, n, i) !in Journals(p) ==> ChainAt(d, n, i).start.sequence == 0)
  }

  ghost predicate RootsOk(h: Hash, docs: seq<Document>, d: Document) {
    forall k :: 0 <= k < |d.handoffs| ==>
                  d.handoffs[k].oldJournalId in Journals(d)
                  && h(History(docs, d.handoffs[k].oldJournalId)) == d.handoffs[k].oldEvents
  }

  /** The verifier's judgement of document `d` behind the accepted `prefix`. */
  ghost predicate AcceptsNext(h: Hash, id: Identity, prefix: seq<Document>, d: Document) {
    var p := Previous(prefix);
    && HeaderOk(id, prefix, d) && HandoffListOk(p, d) && ChainsOk(id, d)
    && OrdersKept(p, d) && Linked(p, d)
    && |Continuations(d)| == |d.handoffs|
    && RootsOk(h, prefix + [d], d)
    && Journals(p) <= Journals(d)
  }

  ghost predicate AcceptedAt(h: Hash, id: Identity, docs: seq<Document>, k: nat)
    requires k < |docs|
  {
    AcceptsNext(h, id, docs[..k], docs[k])
  }

  /** A whole replay: segments in order and then the manifest. */
  ghost predicate Replays(h: Hash, id: Identity, docs: seq<Document>) {
    forall k :: 0 <= k < |docs| ==> AcceptedAt(h, id, docs, k)
  }

  lemma AcceptedAtPrefix(h: Hash, id: Identity, docs: seq<Document>, n: nat, k: nat)
    requires k < n <= |docs|
    ensures AcceptedAt(h, id, docs[..n], k) == AcceptedAt(h, id, docs, k)
  {
    assert docs[..n][..k] == docs[..k];
  }

  lemma ReplaysPrefix(h: Hash, id: Identity, docs: seq<Document>, n: nat)
    requires Replays(h, id, docs) && n <= |docs|
    ensures Replays(h, id, docs[..n])
  {
    forall k | 0 <= k < n ensures AcceptedAt(h, id, docs[..n], k) {
      AcceptedAtPrefix(h, id, docs, n, k);
    }
  }

  lemma ReplaysSnoc(h: Hash, id: Identity, docs: seq<Document>, d: Document)
    ensures Replays(h, id, docs + [d]) <==> Replays(h, id, docs) && AcceptsNext(h, id, docs, d)
  {
    var all := docs + [d];
    assert all[..|docs|] == docs && all[|docs|] == d;
    forall k | 0 <= k < |docs| ensures AcceptedAt(h, id, docs, k) == AcceptedAt(h, id, all, k) {
      AcceptedAtPrefix(h, id, all, |docs|, k);
    }
    assert AcceptedAt(h, id, all, |docs|) == AcceptsNext(h, id, docs, d);
  }

  // ---------------------------------------------------------------------------
  // Rollover

  function RolledChain(c: Chain): Chain {
    c.(start := c.cursor, startAt := c.lastAt, events := [])
  }

  function RolledChains(cs: seq<Chain>): seq<Chain> {
    seq(|cs|, i requires 0 <= i < |cs| => RolledChain(cs[i]))
  }

  /** rolledDurableArchiveDocument: the manifest that follows a closed segment. */
  function Rolled(d: Document): Document {
    d.(generation := d.generation + 1, chainsPresent := true,
    chains := map n | n in d.chains :: RolledChains(d.chains[n]))
  }
}
