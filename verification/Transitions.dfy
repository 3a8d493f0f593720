/** The transition records a member publishes and the rules a page of them must
    obey (cmd/halro-ha-health/durable_transitions.go).

    Strings that the code compares with fixed words are datatypes with one
    constructor per word and one for every other string; digests and identifiers
    stay strings.  Times are integers and 0 is Go's zero time. */
module Transitions {
  import opened Basics

  datatype Role = Primary | Replica | AwaitingDecision | OtherRole(text: string)

  datatype Kind = Promise | Promote | AdoptHigherTerm | OtherKind(text: string)

  datatype BaselineKind = LegacyBaseline | InitialState | OtherBaseline(text: string)

  datatype Cursor = Cursor(journalId: string, sequence: U64, digest: string, baselineDigest: string,
                           role: Role, term: U64, promised: U64)

  datatype Event = Event(sequence: U64, at: Time, kind: Kind, fromRole: Role, toRole: Role,
                         fromTerm: U64, toTerm: U64, fromPromised: U64, toPromised: U64,
                         previousDigest: string, digest: string)

  datatype Page = Page(version: int, clusterId: string, incarnation: string, nodeId: string,
                       baselineKind: BaselineKind, baselineDigest: string, baselineRole: Role,
                       baselineTerm: U64, baselinePromised: U64,
                       committed: U64, headDigest: string, events: seq<Event>,
                       nextJournalId: string, nextSequence: U64, nextDigest: string, hasMore: bool)

  /** uint64 addition of one, with its wrap-around. */
  function Inc(x: U64): U64 {
    if x == U64_SIZE - 1 then 0 else x + 1
  }

  predicate LowerHex(s: string) {
    forall i :: 0 <= i < |s| ==> '0' <= s[i] <= '9' || 'a' <= s[i] <= 'f'
  }

  predicate ValidDigest(s: string) {
    |s| == 64 && LowerHex(s)
  }

  predicate ValidJournalId(s: string) {
    |s| == 32 && LowerHex(s)
  }

  predicate ValidRole(r: Role) {
    !r.OtherRole?
  }

  predicate ValidChange(e: Event) {
    && ValidRole(e.fromRole) && ValidRole(e.toRole)
    && e.fromTerm <= e.fromPromised && e.toTerm <= e.toPromised
    && match e.kind
       case Promise =>
         && e.toRole == (if e.fromRole == Primary then Replica else e.fromRole)
         && e.toTerm == e.fromTerm && e.toPromised > e.fromPromised
       case Promote =>
         && e.fromRole == Replica && e.toRole == Primary
         && e.toTerm == e.fromPromised && e.toTerm > e.fromTerm
         && e.toPromised == e.fromPromised
       case AdoptHigherTerm =>
         && e.toRole == Replica && e.toTerm >= e.fromTerm && e.toPromised >= e.fromPromised
         && (e.toRole != e.fromRole || e.toTerm != e.fromTerm || e.toPromised != e.fromPromised)
       case OtherKind(_) => false
  }

  /** A member state as a change sees it. */
  datatype Standing = Standing(role: Role, term: U64, promised: U64)

  predicate ValidStanding(s: Standing) {
    !s.role.OtherRole? && s.term <= s.promised
  }

  /** `e` leads from one state to another. */
  predicate Moves(e: Event, from: Standing, to: Standing) {
    && Standing(e.fromRole, e.fromTerm, e.fromPromised) == from && Standing(e.toRole, e.toTerm, e.toPromised) == to
    && ValidChange(e)
  }

  /** A change may raise what a member has promised or adopted and make it a
      replica, a waiting member may promise on, and a replica may become primary
      of exactly the term it promised. */
  predicate Possible(from: Standing, to: Standing) {
    && ValidStanding(from) && ValidStanding(to) && from.term <= to.term && from.promised <= to.promised && from != to
    && match to.role
       case Replica => true
       case Primary => from.role == Replica && from.term < to.term == to.promised == from.promised
       case AwaitingDecision => from.role == AwaitingDecision && from.term == to.term
       case OtherRole(_) => false
  }

  /** The event `e` as a change of this kind between these states. */
  function Between(e: Event, kind: Kind, from: Standing, to: Standing): Event {
    e.(kind := kind, fromRole := from.role, fromTerm := from.term, fromPromised := from.promised,
    toRole := to.role, toTerm := to.term, toPromised := to.promised)
  }

  /** Exactly the possible changes have a valid event; a promise is one of them
      whenever it raises only what was promised and leaves a waiting member
      waiting. */
  lemma ChangesExactly(from: Standing, to: Standing, e: Event)
    ensures Moves(e, from, to) ==> Possible(from, to)
    ensures Possible(from, to) ==>
              || Moves(Between(e, Promise, from, to), from, to) || Moves(Between(e, Promote, from, to), from, to)
              || Moves(Between(e, AdoptHigherTerm, from, to), from, to)
    ensures Moves(Between(e, Promote, from, to), from, to) <==> Possible(from, to) && to.role == Primary
    ensures Moves(Between(e, AdoptHigherTerm, from, to), from, to) <==> Possible(from, to) && to.role == Replica
    ensures Moves(Between(e, Promise, from, to), from, to) <==>
            && Possible(from, to) && to.role != Primary && from.term == to.term && from.promised < to.promised
            && (from.role == AwaitingDecision <==> to.role == AwaitingDecision)
  {}

  /** The cursor after one more event: journal and baseline digest stay. */
  function Advance(c: Cursor, e: Event): Cursor {
    c.(sequence := e.sequence, digest := e.digest, role := e.toRole, term := e.toTerm, promised := e.toPromised)
  }

  /** One event may follow cursor `c` whose latest event is dated `at`. */
  predicate Follows(c: Cursor, at: Time, e: Event) {
    && e.sequence == Inc(c.sequence) && e.previousDigest == c.digest && ValidDigest(e.digest)
    && ValidChange(e)
    && e.fromRole == c.role && e.fromTerm == c.term && e.fromPromised == c.promised
    && e.at != ZERO_TIME && at <= e.at
  }

  /** The cursor in front of `es[i]`; for `i == |es|` the cursor behind them all. */
  function CursorAt(start: Cursor, es: seq<Event>, i: nat): Cursor
    requires i <= |es|
  {
    if i == 0 then start else Advance(start, es[i - 1])
  }

  function TimeAt(at: Time, es: seq<Event>, i: nat): Time
    requires i <= |es|
  {
    if i == 0 then at else es[i - 1].at
  }

  predicate StepOk(start: Cursor, at: Time, es: seq<Event>, i: nat)
    requires i < |es|
  {
    Follows(CursorAt(start, es, i), TimeAt(at, es, i), es[i])
  }

  /** Every event follows its predecessor, from cursor `start` and time `at` on. */
  predicate Accepts(start: Cursor, at: Time, es: seq<Event>) {
    forall i :: 0 <= i < |es| ==> StepOk(start, at, es, i)
  }

  function EndCursor(start: Cursor, es: seq<Event>): Cursor {
    CursorAt(start, es, |es|)
  }

  function EndTime(at: Time, es: seq<Event>): Time {
    TimeAt(at, es, |es|)
  }

  lemma StepLeft(start: Cursor, at: Time, a: seq<Event>, b: seq<Event>, i: nat)
    requires i < |a|
    ensures StepOk(start, at, a + b, i) == StepOk(start, at, a, i)
  {}

  lemma StepRight(start: Cursor, at: Time, a: seq<Event>, b: seq<Event>, i: nat)
    requires i < |b|
    ensures StepOk(start, at, a + b, |a| + i) == StepOk(EndCursor(start, a), EndTime(at, a), b, i)
  {}

  lemma EndsConcat(start: Cursor, at: Time, a: seq<Event>, b: seq<Event>)
    ensures EndCursor(start, a + b) == EndCursor(EndCursor(start, a), b)
    ensures EndTime(at, a + b) == EndTime(EndTime(at, a), b)
  {}

  /** Replaying two runs of events in a row is replaying their concatenation. */
  lemma AcceptsConcat(start: Cursor, at: Time, a: seq<Event>, b: seq<Event>)
    ensures Accepts(start, at, a + b) <==> Accepts(start, at, a) && Accepts(EndCursor(start, a), EndTime(at, a), b)
  {
    forall i | 0 <= i < |a| ensures StepOk(start, at, a + b, i) == StepOk(start, at, a, i) {
      StepLeft(start, at, a, b, i);
    }
    forall i | 0 <= i < |b|
      ensures StepOk(start, at, a + b, |a| + i) == StepOk(EndCursor(start, a), EndTime(at, a), b, i)
    {
      StepRight(start, at, a, b, i);
    }
    if Accepts(start, at, a) && Accepts(EndCursor(start, a), EndTime(at, a), b) {
      forall i | 0 <= i < |a + b| ensures StepOk(start, at, a + b, i) {
        if i >= |a| {
          assert StepOk(EndCursor(start, a), EndTime(at, a), b, i - |a|);
        }
      }
    }
  }

  /** Accepted events are numbered without a hole as long as the counter does not
      run past the last uint64. */
  lemma {:induction false} Numbering(start: Cursor, at: Time, es: seq<Event>, k: nat)
    requires Accepts(start, at, es) && start.sequence + |es| < U64_SIZE
    requires k <= |es|
    ensures CursorAt(start, es, k).sequence == start.sequence + k
  {
    if k > 0 {
      Numbering(start, at, es, k - 1);
      assert StepOk(start, at, es, k - 1);
    }
  }

  // ---------------------------------------------------------------------------
  // What an accepted journal can and cannot do

  /** Promised never falls behind term, and neither ever decreases. */
  lemma {:induction false} TermsMonotone(start: Cursor, at: Time, es: seq<Event>, i: nat, k: nat)
    requires Accepts(start, at, es) && start.term <= start.promised
    requires i <= k <= |es|
    ensures CursorAt(start, es, i).term <= CursorAt(start, es, k).term
    ensures CursorAt(start, es, i).promised <= CursorAt(start, es, k).promised
    ensures CursorAt(start, es, k).term <= CursorAt(start, es, k).promised
    decreases k
  {
    if k > 0 {
      assert StepOk(start, at, es, k - 1);
      if i < k {
        TermsMonotone(start, at, es, i, k - 1);
      }
    }
  }

  /** Lexicographic progress measure of a member state. */
  function TermWeight(c: Cursor): nat {
    c.term + c.promised
  }

  predicate Later(a: Cursor, b: Cursor) {
    TermWeight(a) < TermWeight(b) || (TermWeight(a) == TermWeight(b) && a.role != Replica && b.role == Replica)
  }

  /** The measure strictly rises along a journal, so no (role, term, promised
      term) is ever visited twice. */
  lemma {:induction false} NoStateRepeats(start: Cursor, at: Time, es: seq<Event>, i: nat, k: nat)
    requires Accepts(start, at, es)
    requires i < k <= |es|
    ensures Later(CursorAt(start, es, i), CursorAt(start, es, k))
    ensures var a, b := CursorAt(start, es, i), CursorAt(start, es, k);
            (a.role, a.term, a.promised) != (b.role, b.term, b.promised)
    decreases k
  {
    assert StepOk(start, at, es, k - 1);
    assert Later(CursorAt(start, es, k - 1), CursorAt(start, es, k));
    if i < k - 1 {
      NoStateRepeats(start, at, es, i, k - 1);
    }
  }

  /** A member is primary only at the baseline or right after a promote, and the
      next event ends it: no event starts or extends a primary state otherwise. */
  lemma PrimaryOpensWithPromote(start: Cursor, at: Time, es: seq<Event>, k: nat)
    requires Accepts(start, at, es)
    requires k <= |es| && CursorAt(start, es, k).role == Primary
    ensures k == 0 || es[k - 1].kind == Promote
    ensures k < |es| ==> CursorAt(start, es, k + 1).role == Replica
  {
    if k > 0 {
      assert StepOk(start, at, es, k - 1);
    }
    if k < |es| {
      assert StepOk(start, at, es, k);
    }
  }

  /** No term is won twice: successive promotes carry strictly rising terms. */
  lemma PromotesRise(start: Cursor, at: Time, es: seq<Event>, i: nat, k: nat)
    requires Accepts(start, at, es) && start.term <= start.promised
    requires i < k < |es| && es[i].kind == Promote && es[k].kind == Promote
    ensures start.term < es[i].toTerm < es[k].toTerm
  {
    assert StepOk(start, at, es, i);
    assert StepOk(start, at, es, k);
    TermsMonotone(start, at, es, 0, i);
    TermsMonotone(start, at, es, i + 1, k);
  }

  /** Times never run backwards inside an accepted journal. */
  lemma {:induction false} TimesOrdered(start: Cursor, at: Time, es: seq<Event>, i: nat, k: nat)
    requires Accepts(start, at, es)
    requires i <= k <= |es|
    ensures TimeAt(at, es, i) <= TimeAt(at, es, k)
    decreases k
  {
    if i < k {
      assert StepOk(start, at, es, k - 1);
      TimesOrdered(start, at, es, i, k - 1);
    }
  }

  // ---------------------------------------------------------------------------
  // Page validation

  const SECOND: Time := 1_000_000_000

  const PAGE_EVENT_LIMIT := 64

  datatype PageVerdict = PageOk(next: Cursor) | BadCursor | BadSchema | BadChain

  /** The cursor a first page starts from. */
  function PageBaseline(page: Page): Cursor {
    Cursor(page.nextJournalId, 0, page.baselineDigest, page.baselineDigest,
           page.baselineRole, page.baselineTerm, page.baselinePromised)
  }

  function PageStart(page: Page, cursor: Option<Cursor>): Cursor {
    if cursor.None? then PageBaseline(page) else cursor.value
  }

  predicate CursorUsable(c: Cursor) {
    && ValidJournalId(c.journalId) && ValidDigest(c.digest) && ValidDigest(c.baselineDigest)
    && ValidRole(c.role) && c.term <= c.promised
  }

  predicate PageSchemaOk(page: Page, cluster: string, node: string, incarnation: string) {
    && page.version == 1 && page.clusterId == cluster && page.nodeId == node && page.incarnation == incarnation
    && !page.baselineKind.OtherBaseline?
    && ValidJournalId(page.nextJournalId) && ValidDigest(page.baselineDigest)
    && ValidDigest(page.headDigest) && ValidDigest(page.nextDigest)
    && ValidRole(page.baselineRole) && page.baselineTerm <= page.baselinePromised
    && |page.events| <= PAGE_EVENT_LIMIT && page.nextSequence <= page.committed
    && page.hasMore == (page.nextSequence < page.committed)
    && (page.hasMore ==> |page.events| == PAGE_EVENT_LIMIT)
  }

  predicate CursorMatchesPage(page: Page, cursor: Option<Cursor>) {
    cursor.Some? ==>
      && cursor.value.journalId == page.nextJournalId && cursor.value.baselineDigest == page.baselineDigest
      && (cursor.value.sequence == 0 ==> cursor.value == PageBaseline(page))
  }

  predicate PageChainOk(page: Page, cursor: Option<Cursor>, now: Time) {
    var start := PageStart(page, cursor);
    && CursorMatchesPage(page, cursor)
    && start.sequence + |page.events| < U64_SIZE
    && Accepts(start, ZERO_TIME, page.events)
    && (forall i :: 0 <= i < |page.events| ==> page.events[i].at <= now + 30 * SECOND)
    && EndCursor(start, page.events).sequence == page.nextSequence
    && EndCursor(start, page.events).digest == page.nextDigest
    && (page.committed == page.nextSequence ==> page.headDigest == page.nextDigest)
  }

  /** The validating half of fetchDurablePage, walking the events once. */
  method ValidatePage(page: Page, cursor: Option<Cursor>, cluster: string, node: string, incarnation: string, now: Time)
    returns (verdict: PageVerdict)
    ensures verdict.PageOk? <==> (cursor.Some? ==> CursorUsable(cursor.value))
                                 && PageSchemaOk(page, cluster, node, incarnation) && PageChainOk(page, cursor, now)
    ensures verdict.PageOk? ==> verdict.next == EndCursor(PageStart(page, cursor), page.events)
    ensures verdict.BadCursor? <==> cursor.Some? && !CursorUsable(cursor.value)
    ensures verdict.BadSchema? <==> (cursor.Some? ==> CursorUsable(cursor.value))
                                    && !PageSchemaOk(page, cluster, node, incarnation)
  {
    if cursor.Some? && !CursorUsable(cursor.value) {
      return BadCursor;
    }
    if !PageSchemaOk(page, cluster, node, incarnation) {
      return BadSchema;
    }
    if !CursorMatchesPage(page, cursor) {
      return BadChain;
    }
    var start := PageStart(page, cursor);
    if start.sequence > U64_SIZE - 1 - |page.events| {
      return BadChain;
    }
    var latest, previousAt := start, ZERO_TIME;
    for i := 0 to |page.events|
      invariant latest == CursorAt(start, page.events, i)
      invariant previousAt == TimeAt(ZERO_TIME, page.events, i)
      invariant forall k :: 0 <= k < i ==> StepOk(start, ZERO_TIME, page.events, k)
      invariant forall k :: 0 <= k < i ==> page.events[k].at <= now + 30 * SECOND
    {
      var event := page.events[i];
      assert Follows(latest, previousAt, event) == StepOk(start, ZERO_TIME, page.events, i);
      if !Follows(latest, previousAt, event) || event.at > now + 30 * SECOND {
        return BadChain;
      }
      previousAt := event.at;
      latest := Advance(latest, event);
    }
    if latest.sequence != page.nextSequence || latest.digest != page.nextDigest ||
       (page.committed == latest.sequence && page.headDigest != latest.digest) {
      return BadChain;
    }
    return PageOk(latest);
  }
}
