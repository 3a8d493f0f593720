/** What a committed handoff fixes for the rest of every run: the retired
    journal never grows again, its recorded root keeps matching, and terms only
    rise along the journals of one incarnation. */
module DurableFreeze {
  import opened Basics
  import opened Transitions
  import opened DurableDocument
  import opened DurableCapture
  import opened DurableRollover
  import opened DurableArchive
  import opened DurableHandoff
  import opened DurableRuns
  import opened SnapshotComparison

  // ---------------------------------------------------------------------------
  // Properties of documents that every step keeps

  ghost predicate HandsOver(cfg: Config, disk: Disk, base: Document, e: Evidence, member: MemberReport, page: Page,
                            at: Time)
  {
    && disk.manifest == Some(base) && ReplayOk(cfg, disk.segments, base)
    && CommitOk(cfg, disk, base, disk, e, member, page, at)
  }

  ghost predicate KeptByCapture(P: Document -> bool) {
    && (forall d: Document :: P(d) ==> P(Rolled(d)))
    && (forall d: Document, node: string, page: Page, cursor: Cursor, now: Time ::
          P(d) && Prepare(d, node, page, cursor, now).Ready? ==> P(Prepare(d, node, page, cursor, now).doc))
  }

  ghost predicate KeptByUpgrade(cfg: Config, P: Document -> bool) {
    forall d: Document :: P(d) && ReplayOk(cfg, map[], Upgraded(d)) ==> P(Upgraded(d))
  }

  ghost predicate KeptByHandoff(cfg: Config, P: Document -> bool) {
    forall disk: Disk, d: Document, e: Evidence, member: MemberReport, page: Page, at: Time ::
      P(d) && HandsOver(cfg, disk, d, e, member, page, at) ==> P(HandedOver(d, ProofOf(e), member, page, at))
  }

  ghost predicate Holds(cfg: Config, s: System, P: Document -> bool) {
    P(CurrentDocument(cfg, s.disk)) && (s.proc.Some? ==> P(s.proc.value))
  }

  lemma CaptureKeeps(cfg: Config, s: System, a: Action, P: Document -> bool)
    requires Holds(cfg, s, P) && KeptByCapture(P) && a.Capture?
    ensures Holds(cfg, Next(cfg, s, a), P)
  {
    hide Prepare, Rolled, HasEvents, Fits;
    if s.proc.Some? {
      var r := Rotation(cfg, s.disk, s.proc.value, a.w.segment, a.w.rolled);
      assert P(r.doc) && P(CurrentDocument(cfg, r.disk));
    }
  }

  lemma OpenKeeps(cfg: Config, disk: Disk, up: Outcome, rec: Outcome, P: Document -> bool)
    requires Holds(cfg, System(disk, None), P) && KeptByCapture(P) && KeptByUpgrade(cfg, P)
    ensures var o := Opening(cfg, disk, up, rec); Holds(cfg, System(o.disk, o.doc), P)
  {}

  lemma HandOverKeeps(cfg: Config, s: System, a: Action, P: Document -> bool)
    requires Sound(cfg, s) && Holds(cfg, s, P) && KeptByCapture(P) && KeptByUpgrade(cfg, P) && KeptByHandoff(cfg, P)
    requires a.HandOver?
    ensures Holds(cfg, Next(cfg, s, a), P)
  {
    hide Sound, Opening, HandedOver, KeptByCapture, KeptByUpgrade;
    if s.proc.None? {
      OpenKeeps(cfg, s.disk, a.up, a.rec, P);
      OpenStep(cfg, s.disk, a.up, a.rec);
      var o := Opening(cfg, s.disk, a.up, a.rec);
      if o.doc.Some? && CommitOk(cfg, o.disk, o.doc.value, a.frozen, a.e, a.member, a.baseline, a.at) {
        assert HandsOver(cfg, o.disk, o.doc.value, a.e, a.member, a.baseline, a.at);
      }
    }
  }

  lemma StepKeeps(cfg: Config, s: System, a: Action, P: Document -> bool)
    requires Sound(cfg, s) && Holds(cfg, s, P) && KeptByCapture(P) && KeptByUpgrade(cfg, P) && KeptByHandoff(cfg, P)
    ensures Holds(cfg, Next(cfg, s, a), P)
  {
    hide Sound, Opening, Capturing, Committed, KeptByCapture, KeptByUpgrade, KeptByHandoff;
    match a {
      case Open(up, rec) =>
        if s.proc.None? {
          OpenKeeps(cfg, s.disk, up, rec, P);
        }
      case Capture(_, _, _, _, _) => CaptureKeeps(cfg, s, a, P);
      case HandOver(_, _, _, _, _, _, _, _) => HandOverKeeps(cfg, s, a, P);
      case Kill =>
    }
  }

  // ---------------------------------------------------------------------------
  // Retired journals

  /** Another chain of the node follows this one. */
  ghost predicate Retired(d: Document, j: string) {
    exists n, i :: At(d, n, i) && JournalAt(d, n, i) == j && i + 1 < |d.chains[n]|
  }

  /** Chains keep their place and journal. */
  ghost predicate Stays(a: Document, b: Document) {
    forall n, i :: At(a, n, i) ==> At(b, n, i) && JournalAt(b, n, i) == JournalAt(a, n, i)
  }

  lemma StaysRetired(a: Document, b: Document, j: string)
    requires Stays(a, b) && Retired(a, j)
    ensures Retired(b, j)
  {
    var n, i :| At(a, n, i) && JournalAt(a, n, i) == j && i + 1 < |a.chains[n]|;
    assert At(a, n, i + 1);
    assert At(b, n, i) && At(b, n, i + 1);
  }

  lemma RetiredKept(cfg: Config, j: string)
    ensures var P := (d: Document) => Retired(d, j);
            KeptByCapture(P) && KeptByUpgrade(cfg, P) && KeptByHandoff(cfg, P)
  {
    hide Prepare, Rolled, Upgraded, HandedOver, Retired, HandsOver, ReplayOk;
    forall d: Document | Retired(d, j) ensures Retired(Rolled(d), j) {
      RolledPositions(d);
      StaysRetired(d, Rolled(d), j);
    }
    forall d: Document, node: string, page: Page, cursor: Cursor, now: Time
      | Retired(d, j) && Prepare(d, node, page, cursor, now).Ready?
      ensures Retired(Prepare(d, node, page, cursor, now).doc, j)
    {
      CapturePositions(d, node, page, cursor, now);
      StaysRetired(d, Prepare(d, node, page, cursor, now).doc, j);
    }
    forall d: Document | Retired(d, j) ensures Retired(Upgraded(d), j) {
      UpgradedPositions(d);
      StaysRetired(d, Upgraded(d), j);
    }
    forall d: Document, e: Evidence, member: MemberReport, page: Page, at: Time | Retired(d, j)
      ensures Retired(HandedOver(d, ProofOf(e), member, page, at), j)
    {
      HandoffPositions(d, ProofOf(e), member, page, at);
      StaysRetired(d, HandedOver(d, ProofOf(e), member, page, at), j);
    }
  }

  /** No page reaches a retired journal. */
  lemma RetiredRefused(m: Document, node: string, page: Page, cursor: Cursor, now: Time, j: string)
    requires UniqueJournals(m) && Retired(m, j) && Prepare(m, node, page, cursor, now).Ready?
    ensures cursor.journalId != j
  {
    var n, i :| At(m, n, i) && JournalAt(m, n, i) == j && i + 1 < |m.chains[n]|;
    JournalsAt(m, n, i);
    CapturePositions(m, node, page, cursor, now);
  }

  ghost predicate Frozen(cfg: Config, s: System, j: string, es: seq<Event>) {
    && Sound(cfg, s) && Holds(cfg, s, (d: Document) => Retired(d, j))
    && Abs(cfg, s).served[j] == es && Abs(cfg, s).stored[j] == es
  }

  lemma RefusedUnchanged(cfg: Config, s: System, a: Action)
    requires a.Capture? && s.proc.Some? && Prepare(s.proc.value, a.node, a.page, a.cursor, a.now).Refused?
    ensures Next(cfg, s, a) == s && !Acked(cfg, s, a)
  {}

  lemma PlainUntouched(p: Plain, q: Plain, a: Action, acked: bool, j: string)
    requires Full(p.served) && Full(p.stored) && Full(q.served) && Full(q.stored) && PlainNext(p, q, a, acked)
    requires p.served[j] == p.stored[j] && (a.Capture? ==> a.cursor.journalId != j)
    ensures q.served[j] == p.served[j] && q.stored[j] == p.served[j]
  {}

  lemma LogFrozen(cfg: Config, s: System, a: Action, j: string, es: seq<Event>)
    requires Sound(cfg, s) && Abs(cfg, s).served[j] == es && Abs(cfg, s).stored[j] == es
    requires a.Capture? && s.proc.Some? ==> UniqueJournals(s.proc.value) && Retired(s.proc.value, j)
    ensures Sound(cfg, Next(cfg, s, a))
    ensures Abs(cfg, Next(cfg, s, a)).served[j] == es && Abs(cfg, Next(cfg, s, a)).stored[j] == es
  {
    hide Sound, Abs, Prepare, UniqueJournals, Retired, PlainNext, Capturing, Opening, Committed;
    StepRefines(cfg, s, a);
    var p, q := Abs(cfg, s), Abs(cfg, Next(cfg, s, a));
    if a.Capture? && s.proc.Some? {
      if Prepare(s.proc.value, a.node, a.page, a.cursor, a.now).Ready? {
        RetiredRefused(s.proc.value, a.node, a.page, a.cursor, a.now, j);
        PlainUntouched(p, q, a, Acked(cfg, s, a), j);
      } else {
        RefusedUnchanged(cfg, s, a);
      }
    } else if !a.Capture? {
      PlainUntouched(p, q, a, Acked(cfg, s, a), j);
    }
  }

  lemma StepFrozen(cfg: Config, s: System, a: Action, j: string, es: seq<Event>)
    requires Frozen(cfg, s, j, es)
    ensures Frozen(cfg, Next(cfg, s, a), j, es)
  {
    assert s.proc.Some? ==> UniqueJournals(s.proc.value) && Retired(s.proc.value, j);
    hide Sound, Abs, Next, UniqueJournals, Retired, KeptByCapture, KeptByUpgrade, KeptByHandoff, Holds;
    RetiredKept(cfg, j);
    StepKeeps(cfg, s, a, (d: Document) => Retired(d, j));
    LogFrozen(cfg, s, a, j, es);
  }

  // ---------------------------------------------------------------------------
  // From the commit on

  lemma HandedOverRetires(base: Document, proof: Handoff, member: MemberReport, page: Page, at: Time)
    requires OldHeadMatches(base, proof)
    ensures Retired(HandedOver(base, proof, member, page, at), proof.oldJournalId)
  {
    HandoffPositions(base, proof, member, page, at);
    var d, t := HandedOver(base, proof, member, page, at), |ChainsOf(base, proof.nodeId)|;
    assert At(base, proof.nodeId, t - 1) && At(d, proof.nodeId, t - 1);
    assert JournalAt(d, proof.nodeId, t - 1) == proof.oldJournalId;
  }

  /** The step committed its handoff. */
  ghost predicate Commits(cfg: Config, s: System, a: Action) {
    && a.HandOver? && s.proc.None? && a.wMan.Reaches()
    && var o := Opening(cfg, s.disk, a.up, a.rec);
    o.doc.Some? && CommitOk(cfg, o.disk, o.doc.value, a.frozen, a.e, a.member, a.baseline, a.at)
  }

  lemma CommitFreezes(cfg: Config, s: System, a: Action)
    requires Sound(cfg, s) && Commits(cfg, s, a)
    ensures Sound(cfg, Next(cfg, s, a))
    ensures Frozen(cfg, Next(cfg, s, a), a.e.retired.journalId, Abs(cfg, s).served[a.e.retired.journalId])
    ensures cfg.hash(Abs(cfg, s).served[a.e.retired.journalId]) == a.e.retired.eventsRoot
  {
    hide Sound, Opening, PreflightOk, OldHeadMatches, BaselineMatches, ReplayOk, HandedOver, Retired, LogOf;
    HandOverStep(cfg, s, a);
    var o, j := Opening(cfg, s.disk, a.up, a.rec), a.e.retired.journalId;
    var next := HandedOver(o.doc.value, ProofOf(a.e), a.member, a.baseline, a.at);
    HandedOverRetires(o.doc.value, ProofOf(a.e), a.member, a.baseline, a.at);
    assert Next(cfg, s, a) == System(PutManifest(o.disk, next, a.wMan), None);
    CommittedRoot(cfg, o.disk.segments, o.doc.value, a);
    assert Abs(cfg, Next(cfg, s, a)).stored == LogOf(o.disk.segments, next);
  }

  lemma CommittedRoot(cfg: Config, segments: map<nat, Document>, base: Document, a: Action)
    requires a.HandOver? && ReplayOk(cfg, segments, HandedOver(base, ProofOf(a.e), a.member, a.baseline, a.at))
    ensures var next := HandedOver(base, ProofOf(a.e), a.member, a.baseline, a.at);
            Backed(segments, next) && cfg.hash(LogOf(segments, next)[a.e.retired.journalId]) == a.e.retired.eventsRoot
  {
    var next := HandedOver(base, ProofOf(a.e), a.member, a.baseline, a.at);
    var view, run := View(segments, next), SegmentRun(segments, next.generation);
    assert AcceptedAt(cfg.hash, cfg.id, view, |run|);
    assert view[..|run|] == run && run + [next] == view;
    assert next.handoffs[|base.handoffs|].oldEvents == a.e.retired.eventsRoot;
  }

  lemma {:induction false} RunFrozen(cfg: Config, s: System, actions: seq<Action>, i: nat, k: nat, j: string,
                                     es: seq<Event>)
    requires i <= k <= |actions| && Frozen(cfg, After(cfg, s, actions[..i]), j, es)
    ensures Frozen(cfg, After(cfg, s, actions[..k]), j, es)
    decreases k
  {
    hide Frozen, Next;
    if i < k {
      RunFrozen(cfg, s, actions, i, k - 1, j, es);
      StepFrozen(cfg, After(cfg, s, actions[..k - 1]), actions[k - 1], j, es);
      assert actions[..k][..k - 1] == actions[..k - 1];
    }
  }

  /** Once a handoff is on disk the retired journal is the same in every later
      state of every run, served or stored, and still hashes to the recorded
      root. */
  lemma HandoffFreezes(cfg: Config, s: System, actions: seq<Action>, i: nat, k: nat)
    requires Initial(s) && i < k <= |actions| && Commits(cfg, After(cfg, s, actions[..i]), actions[i])
    ensures var j, x, y := actions[i].e.retired.journalId, After(cfg, s, actions[..i]), After(cfg, s, actions[..k]);
            && Sound(cfg, x) && Sound(cfg, y)
            && Abs(cfg, y).served[j] == Abs(cfg, x).served[j] && Abs(cfg, y).stored[j] == Abs(cfg, x).served[j]
            && cfg.hash(Abs(cfg, y).served[j]) == actions[i].e.retired.eventsRoot
  {
    hide Sound, Abs, Next, Opening, CommitOk;
    RunSoundTo(cfg, s, actions, i);
    var x, j := After(cfg, s, actions[..i]), actions[i].e.retired.journalId;
    CommitFreezes(cfg, x, actions[i]);
    assert actions[..i + 1][..i] == actions[..i];
    RunFrozen(cfg, s, actions, i + 1, k, j, Abs(cfg, x).served[j]);
  }

  // ---------------------------------------------------------------------------
  // Terms over runs

  /** Documents in the form that has handoffs climb. */
  ghost predicate Climbing(d: Document) {
    d.version != 1 ==> Climbs(d)
  }

  lemma RolledClimbing(d: Document)
    requires Climbing(d)
    ensures Climbing(Rolled(d))
  {
    RolledPositions(d);
    var x := Rolled(d);
    forall n, i | At(x, n, i) ensures At(d, n, i) && Repeated(x.chains[n], i) == Repeated(d.chains[n], i) {
      assert At(d, n, i);
      RolledRepeated(d, n, i);
    }
    if d.version != 1 {
      forall n, i | At(x, n, i) ensures ChainClimbs(ChainAt(x, n, i)) {
        assert ChainClimbs(ChainAt(d, n, i));
      }
    }
  }

  lemma ExtendedClimbs(c: Chain, page: Page, cursor: Cursor, now: Time)
    requires EndCursor(c.start, c.events) == c.cursor && ValidChain(Extended(c, page, cursor, now))
    requires c.cursor.term <= c.cursor.promised && c.baselinePromised <= c.cursor.promised
    ensures ChainClimbs(Extended(c, page, cursor, now))
  {
    AcceptsConcat(c.start, c.startAt, c.events, page.events);
    EndsConcat(c.start, c.startAt, c.events, page.events);
    TermsMonotone(c.cursor, EndTime(c.startAt, c.events), page.events, 0, |page.events|);
  }

  lemma TargetClimbs(d: Document, node: string, page: Page, cursor: Cursor, now: Time)
    requires Climbs(d) && Prepare(d, node, page, cursor, now).Ready?
    ensures At(Prepare(d, node, page, cursor, now).doc, node, TargetIndex(d, node, page))
    ensures ChainClimbs(ChainAt(Prepare(d, node, page, cursor, now).doc, node, TargetIndex(d, node, page)))
  {
    CapturePositions(d, node, page, cursor, now);
    var t := TargetIndex(d, node, page);
    var c := TargetChains(d, node, page)[t];
    assert ValidChain(Extended(c, page, cursor, now));
    if At(d, node, t) {
      assert ChainClimbs(ChainAt(d, node, t));
    }
    ExtendedClimbs(c, page, cursor, now);
  }

  /** A page repeats no incarnation that was not repeated before. */
  lemma PreparedRepeats(d: Document, node: string, page: Page, cursor: Cursor, now: Time, n: string, i: int)
    requires SeedsAhead(d) && Prepare(d, node, page, cursor, now).Ready?
    requires var x := Prepare(d, node, page, cursor, now).doc; At(x, n, i) && Repeated(x.chains[n], i)
    ensures var x := Prepare(d, node, page, cursor, now).doc;
            && At(d, n, i) && Repeated(d.chains[n], i) && At(d, n, i - 1) && At(x, n, i - 1)
            && ChainAt(x, n, i - 1) == ChainAt(d, n, i - 1)
            && ChainAt(x, n, i).incarnation == ChainAt(d, n, i).incarnation
            && ChainAt(x, n, i).baselinePromised == ChainAt(d, n, i).baselinePromised
  {
    CaptureRepeatedAt(d, node, page, cursor, now, n, i);
    CapturePositions(d, node, page, cursor, now);
    hide Prepare, Repeated;
  }

  lemma PreparedClimbing(d: Document, node: string, page: Page, cursor: Cursor, now: Time)
    requires Climbing(d) && Prepare(d, node, page, cursor, now).Ready?
    ensures Climbing(Prepare(d, node, page, cursor, now).doc)
  {
    CapturePositions(d, node, page, cursor, now);
    PreparedVersion(d, node, page, cursor, now);
    hide Prepare, Extended, Repeated, ChainClimbs;
    var x := Prepare(d, node, page, cursor, now).doc;
    if x.version != 1 {
      forall n, i | At(x, n, i) ensures ChainClimbs(ChainAt(x, n, i)) {
        TargetClimbs(d, node, page, cursor, now);
      }
      forall n, i | At(x, n, i) && Repeated(x.chains[n], i)
        ensures At(x, n, i - 1) && ChainAt(x, n, i - 1).incarnation == ChainAt(x, n, i).incarnation
        ensures ChainAt(x, n, i - 1).cursor.promised <= ChainAt(x, n, i).baselinePromised
      {
        PreparedRepeats(d, node, page, cursor, now, n, i);
      }
    }
  }

  /** Version 2 documents have no continued journals. */
  lemma UpgradedClimbing(cfg: Config, d: Document)
    requires ReplayOk(cfg, map[], Upgraded(d))
    ensures Climbing(Upgraded(d))
  {
    var u := Upgraded(d);
    var view := View(map[], u);
    assert AcceptedAt(cfg.hash, cfg.id, view, |view| - 1);
    assert |Continuations(u)| == 0;
    assert Continuations(u) == {};
    forall n, i | At(u, n, i) ensures !Repeated(u.chains[n], i) {
      var j := u.chains[n][i].cursor.journalId;
      assert j !in Continuations(u);
      assert j !in NodeContinuations(u.chains[n]);
    }
    ReplayClimbs(cfg.hash, cfg.id, view);
  }

  lemma HandedClimbing(cfg: Config, disk: Disk, d: Document, e: Evidence, member: MemberReport, page: Page, at: Time)
    requires Climbing(d) && HandsOver(cfg, disk, d, e, member, page, at)
    ensures Climbing(HandedOver(d, ProofOf(e), member, page, at))
  {
    var proof := ProofOf(e);
    var x, node, t := HandedOver(d, proof, member, page, at), proof.nodeId, |ChainsOf(d, proof.nodeId)|;
    HandoffPositions(d, proof, member, page, at);
    HandsOverFacts(cfg, disk, d, e, member, page, at);
    var view := View(disk.segments, x);
    hide HandedOver, HandsOver, Climbs;
    assert SeedsAhead(x) by {
      forall n, i | At(x, n, i) && Repeated(x.chains[n], i)
        ensures At(x, n, i - 1) && ChainAt(x, n, i - 1).cursor.promised <= ChainAt(x, n, i).baselinePromised
      {
        if At(d, n, i) {
          assert forall k :: 0 <= k <= i ==> At(d, n, k) && ChainAt(x, n, k) == ChainAt(d, n, k);
          assert Repeated(d.chains[n], i);
        } else {
          assert n == node && i == t && At(d, node, t - 1);
        }
      }
    }
    ReplayClimbs(cfg.hash, cfg.id, view);
  }

  lemma HandsOverFacts(cfg: Config, disk: Disk, d: Document, e: Evidence, member: MemberReport, page: Page, at: Time)
    requires HandsOver(cfg, disk, d, e, member, page, at) && Climbing(d)
    ensures ChainsOf(d, e.retired.nodeId) != [] && SeedsAhead(d)
    ensures var cs := ChainsOf(d, e.retired.nodeId); cs[|cs| - 1].cursor.promised <= page.baselinePromised
    ensures var x := HandedOver(d, ProofOf(e), member, page, at);
            Backed(disk.segments, x) && Replays(cfg.hash, cfg.id, View(disk.segments, x))
  {}

  lemma ClimbingKept(cfg: Config)
    ensures var P := (d: Document) => Climbing(d); KeptByCapture(P) && KeptByUpgrade(cfg, P) && KeptByHandoff(cfg, P)
  {
    hide Prepare, Rolled, Upgraded, HandedOver, Climbing, HandsOver, ReplayOk;
    forall d: Document | Climbing(d) ensures Climbing(Rolled(d)) {
      RolledClimbing(d);
    }
    forall d: Document, node: string, page: Page, cursor: Cursor, now: Time
      | Climbing(d) && Prepare(d, node, page, cursor, now).Ready?
      ensures Climbing(Prepare(d, node, page, cursor, now).doc)
    {
      PreparedClimbing(d, node, page, cursor, now);
    }
    forall d: Document | ReplayOk(cfg, map[], Upgraded(d)) ensures Climbing(Upgraded(d)) {
      UpgradedClimbing(cfg, d);
    }
    forall disk: Disk, d: Document, e: Evidence, member: MemberReport, page: Page, at: Time
      | Climbing(d) && HandsOver(cfg, disk, d, e, member, page, at)
      ensures Climbing(HandedOver(d, ProofOf(e), member, page, at))
    {
      HandedClimbing(cfg, disk, d, e, member, page, at);
    }
  }

  /** The served document and the stored one climb. */
  ghost predicate SystemClimbs(cfg: Config, s: System) {
    Sound(cfg, s) && Holds(cfg, s, (d: Document) => Climbing(d))
  }

  lemma StepClimbs(cfg: Config, s: System, a: Action)
    requires SystemClimbs(cfg, s)
    ensures SystemClimbs(cfg, Next(cfg, s, a))
  {
    hide Sound, Abs, Next, Holds, PlainNext, KeptByCapture, KeptByUpgrade, KeptByHandoff, Climbing;
    ClimbingKept(cfg);
    StepKeeps(cfg, s, a, (d: Document) => Climbing(d));
    StepRefines(cfg, s, a);
  }

  lemma InitialClimbs(cfg: Config, s: System)
    requires Initial(s)
    ensures SystemClimbs(cfg, s)
  {}

  lemma {:induction false} RunClimbs(cfg: Config, s: System, actions: seq<Action>)
    requires Initial(s)
    ensures SystemClimbs(cfg, After(cfg, s, actions))
  {
    hide SystemClimbs, Next;
    if actions == [] {
      InitialClimbs(cfg, s);
    } else {
      var n := |actions| - 1;
      RunClimbs(cfg, s, actions[..n]);
      StepClimbs(cfg, After(cfg, s, actions[..n]), actions[n]);
    }
  }

  /** A process serves no document in the old form. */
  predicate ServesNew(s: System) {
    s.proc.Some? ==> s.proc.value.version != 1
  }

  lemma StepServesNew(cfg: Config, s: System, a: Action)
    requires ServesNew(s)
    ensures ServesNew(Next(cfg, s, a))
  {
    if a.Capture? && s.proc.Some? {
      hide Prepare, Fits, HasEvents;
      var r := Rotation(cfg, s.disk, s.proc.value, a.w.segment, a.w.rolled);
      forall m: Document | m.version != 1 && Prepare(m, a.node, a.page, a.cursor, a.now).Ready?
        ensures Prepare(m, a.node, a.page, a.cursor, a.now).doc.version != 1
      {
        PreparedVersion(m, a.node, a.page, a.cursor, a.now);
      }
      assert r.doc.version != 1;
    }
  }

  lemma {:induction false} RunServesNew(cfg: Config, s: System, actions: seq<Action>)
    requires Initial(s)
    ensures ServesNew(After(cfg, s, actions))
  {
    hide Next;
    if actions != [] {
      var n := |actions| - 1;
      RunServesNew(cfg, s, actions[..n]);
      StepServesNew(cfg, After(cfg, s, actions[..n]), actions[n]);
    }
  }

  /** In every state of every run the promised term never falls along the journals
      of one node and incarnation, neither in the document the process serves nor
      in the stored manifest. */
  lemma TermsRiseOverRuns(cfg: Config, s: System, actions: seq<Action>, d: Document, n: string, i: nat, k: nat)
    requires Initial(s)
    requires || After(cfg, s, actions).proc == Some(d)
             || (After(cfg, s, actions).disk.manifest == Some(d) && d.version != 1)
    requires i < k && At(d, n, k) && ChainAt(d, n, i).incarnation == ChainAt(d, n, k).incarnation
    ensures ChainAt(d, n, i).cursor.promised <= ChainAt(d, n, k).baselinePromised <= ChainAt(d, n, k).cursor.promised
  {
    RunClimbs(cfg, s, actions);
    RunServesNew(cfg, s, actions);
    hide After;
    assert Climbing(d);
    assert ChainClimbs(ChainAt(d, n, k));
    GenerationsRise(d, n, i, k);
  }
}
