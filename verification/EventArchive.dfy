/** The polled event archive: bounded rings of the members copied into one
    bounded log with gap markers (cmd/halro-ha-health/event_archive.go). */
module EventArchive {
  import opened Basics

  const RECORD_LIMIT: nat := 1000

  datatype Source = StatePublisher | PrimaryCoordinator | ReplicaStage

  datatype Key = Key(node: string, source: Source)

  datatype Gap = CollectionFailed | CollectionResumed | InitialObservation | IncarnationChanged | SourceChanged
               | RingHistoryMissing | SequenceRegressed

  /** One transition of a member's ring; `detail` is the rest of it. */
  datatype Transition = Transition(sequence: U64, detail: string)

  datatype Body = Mark(gap: Gap) | Moved(transition: Transition)

  datatype Record = Record(observedAt: Time, node: string, incarnation: string, source: Source, processAt: Time,
                           body: Body)

  datatype Place = Place(processAt: Time, incarnation: string, sequence: U64, failed: bool, active: bool)

  /** What one member says about one source. */
  datatype Ring = Ring(startedAt: Time, dropped: U64, events: seq<Transition>)

  datatype Status = Status(node: string, incarnation: string, error: string,
                           live: Option<Ring>, availability: Option<Ring>, stage: Option<Ring>)

  /** The ring checks shared by validLiveTransitions, validAvailabilityTransitions
      and validReplicaStageTransitions. */
  predicate ValidRing(r: Ring) {
    && r.startedAt != ZERO_TIME && r.dropped + |r.events| < U64_SIZE
    && forall i :: 0 <= i < |r.events| ==> r.events[i].sequence == r.dropped + i + 1
  }

  function KeyOf(r: Record): Key {
    Key(r.node, r.source)
  }

  function SourceName(s: Source): string {
    match s
    case StatePublisher => "state_publisher"
    case PrimaryCoordinator => "primary_coordinator"
    case ReplicaStage => "replica_stage"
  }

  /** The text the cursors are filed under. */
  function KeyText(k: Key): string {
    k.node + "/" + SourceName(k.source)
  }

  /** No two keys share a text, whatever the node is called. */
  lemma KeyTextInjective(a: Key, b: Key)
    requires KeyText(a) == KeyText(b)
    ensures a == b
  {
    var s, t, x := SourceName(a.source), SourceName(b.source), KeyText(a);
    assert x[|x| - 1] == s[|s| - 1] == t[|t| - 1] && x[|x| - 2] == s[|s| - 2] == t[|t| - 2];
    assert a.source == b.source;
    assert x[..|x| - 1 - |s|] == a.node && KeyText(b)[..|x| - 1 - |t|] == b.node;
  }

  // ---------------------------------------------------------------------------
  // One poll of one source

  function Unseen(): Place {
    Place(ZERO_TIME, "", 0, false, false)
  }

  function Marker(k: Key, incarnation: string, at: Time, gap: Gap, now: Time): Record {
    Record(now, k.node, incarnation, k.source, at, Mark(gap))
  }

  /** Why the sequence numbers start over, if they do. */
  function Restart(known: bool, p: Place, incarnation: string, startedAt: Time): Option<Gap> {
    if !known || p.processAt == ZERO_TIME then Some(InitialObservation)
    else if p.incarnation != incarnation then Some(IncarnationChanged)
    else if p.processAt != startedAt then Some(SourceChanged)
    else None
  }

  /** The number the next archived transition must exceed. */
  function From(known: bool, p: Place, incarnation: string, startedAt: Time): U64 {
    if Restart(known, p, incarnation, startedAt).Some? then 0 else p.sequence
  }

  function WhenMark(b: bool, r: Record): seq<Record> {
    if b then [r] else []
  }

  /** The same process now ends before what was already archived; the end is
      computed in uint64. */
  predicate Regressed(p: Place, ring: Ring, from: U64) {
    p.processAt != ZERO_TIME && p.processAt == ring.startedAt && (ring.dropped + |ring.events|) % U64_SIZE < from
  }

  /** The markers a poll writes before its transitions. */
  function Markers(k: Key, known: bool, p: Place, incarnation: string, ring: Ring, now: Time): seq<Record> {
    var restart, from := Restart(known, p, incarnation, ring.startedAt), From(known, p, incarnation, ring.startedAt);
    WhenMark(p.failed, Marker(k, incarnation, ring.startedAt, CollectionResumed, now))
    + (if restart.Some? then [Marker(k, incarnation, ring.startedAt, restart.value, now)] else [])
    + WhenMark(ring.dropped > from, Marker(k, incarnation, ring.startedAt, RingHistoryMissing, now))
    + WhenMark(Regressed(p, ring, from), Marker(k, incarnation, ring.startedAt, SequenceRegressed, now))
  }

  function HighWater(es: seq<Transition>, from: U64): U64 {
    if es == [] then from
    else
      var high, last := HighWater(es[..|es| - 1], from), es[|es| - 1].sequence;
      if last > high then last else high
  }

  function MovedRecord(k: Key, incarnation: string, at: Time, t: Transition, now: Time): Record {
    Record(now, k.node, incarnation, k.source, at, Moved(t))
  }

  function Fresh(k: Key, incarnation: string, at: Time, es: seq<Transition>, from: U64, now: Time): seq<Record> {
    if es == [] then []
    else
      var init, last := es[..|es| - 1], es[|es| - 1];
      Fresh(k, incarnation, at, init, from, now)
      + WhenMark(last.sequence > HighWater(init, from), MovedRecord(k, incarnation, at, last, now))
  }

  /** captureSource: what it appends and where it leaves the cursor. */
  function Polled(k: Key, known: bool, p: Place, incarnation: string, ring: Ring, now: Time): (seq<Record>, Place) {
    var from := From(known, p, incarnation, ring.startedAt);
    (Markers(k, known, p, incarnation, ring, now) + Fresh(k, incarnation, ring.startedAt, ring.events, from, now),
     Place(ring.startedAt, incarnation, HighWater(ring.events, from), false, true))
  }

  // ---------------------------------------------------------------------------
  // The log nobody has to keep

  /** Cursors, and every record ever appended. */
  datatype Shelf = Shelf(places: map<Key, Place>, log: seq<Record>)

  function PlaceOf(s: Shelf, k: Key): Place {
    if k in s.places then s.places[k] else Unseen()
  }

  function Filed(s: Shelf, k: Key, rs: seq<Record>, p: Place): Shelf {
    Shelf(s.places[k := p], s.log + rs)
  }

  function PollSource(s: Shelf, k: Key, incarnation: string, ring: Ring, now: Time): Shelf {
    var (rs, p) := Polled(k, k in s.places, PlaceOf(s, k), incarnation, ring, now);
    Filed(s, k, rs, p)
  }

  /** The member no longer has this source. */
  function RestSource(s: Shelf, k: Key, now: Time): Shelf {
    if k !in s.places then s
    else
      var p := s.places[k];
      Filed(s, k, WhenMark(p.failed, Marker(k, p.incarnation, p.processAt, CollectionResumed, now)),
            p.(active := false, failed := false))
  }

  function FailSource(s: Shelf, k: Key, now: Time): Shelf {
    var p := PlaceOf(s, k);
    if (k.source != StatePublisher && !p.active) || p.failed then s
    else Filed(s, k, [Marker(k, p.incarnation, p.processAt, CollectionFailed, now)], p.(failed := true))
  }

  function PollOrRest(s: Shelf, k: Key, incarnation: string, ring: Option<Ring>, now: Time): Shelf {
    if ring.Some? then PollSource(s, k, incarnation, ring.value, now) else RestSource(s, k, now)
  }

  function PollMember(s: Shelf, status: Status, now: Time): Shelf {
    var live, availability, stage :=
      Key(status.node, StatePublisher), Key(status.node, PrimaryCoordinator), Key(status.node, ReplicaStage);
    if status.error != "" then FailSource(FailSource(FailSource(s, live, now), availability, now), stage, now)
    else
      var s1 := if status.live.Some? then PollSource(s, live, status.incarnation, status.live.value, now) else s;
      PollOrRest(PollOrRest(s1, availability, status.incarnation, status.availability, now),
                 stage, status.incarnation, status.stage, now)
  }

  /** The one status of a member, or an inventory error. */
  function StatusOf(statuses: seq<Status>, member: string): Status {
    var own := Own(statuses, member);
    if |own| == 1 then own[0] else Status(member, "", "member_inventory", None, None, None)
  }

  function Own(statuses: seq<Status>, member: string): seq<Status> {
    if statuses == [] then []
    else
      var n := |statuses| - 1;
      Own(statuses[..n], member) + if statuses[n].node == member then [statuses[n]] else []
  }

  function PollAll(s: Shelf, members: seq<string>, statuses: seq<Status>, now: Time): Shelf {
    if members == [] then s
    else
      var n := |members| - 1;
      PollMember(PollAll(s, members[..n], statuses, now), StatusOf(statuses, members[n]), now)
  }

  // ---------------------------------------------------------------------------
  // What the log of one key says

  predicate IsMoved(r: Record, k: Key) {
    KeyOf(r) == k && r.body.Moved?
  }

  predicate IsMark(r: Record, k: Key, gap: Gap) {
    KeyOf(r) == k && r.body == Mark(gap)
  }

  predicate Consecutive(a: Record, b: Record)
    requires a.body.Moved? && b.body.Moved?
  {
    a.processAt == b.processAt && a.incarnation == b.incarnation
    && b.body.transition.sequence == a.body.transition.sequence + 1
  }

  /** The last record if it is a transition, and whether an outage is open. */
  datatype Watch = Watch(last: Option<Record>, outage: bool)

  function Seen(w: Watch, r: Record): Watch {
    match r.body
    case Moved(_) => w.(last := Some(r))
    case Mark(gap) =>
      Watch(None, gap == CollectionFailed || (gap != CollectionResumed && w.outage))
  }

  ghost predicate Legal(w: Watch, r: Record) {
    match r.body
    case Moved(_) => w.last.Some? ==> w.last.value.body.Moved? && Consecutive(w.last.value, r)
    case Mark(gap) => (gap == CollectionFailed ==> !w.outage) && (gap == CollectionResumed ==> w.outage)
  }

  function Scan(log: seq<Record>, k: Key): Watch {
    if log == [] then Watch(None, false)
    else
      var w, r := Scan(log[..|log| - 1], k), log[|log| - 1];
      if KeyOf(r) == k then Seen(w, r) else w
  }

  ghost predicate LegalLog(log: seq<Record>, k: Key) {
    forall i :: 0 <= i < |log| && KeyOf(log[i]) == k ==> Legal(Scan(log[..i], k), log[i])
  }

  lemma ScanSnoc(log: seq<Record>, r: Record, k: Key)
    ensures Scan(log + [r], k) == if KeyOf(r) == k then Seen(Scan(log, k), r) else Scan(log, k)
    ensures LegalLog(log + [r], k) <==> LegalLog(log, k) && (KeyOf(r) == k ==> Legal(Scan(log, k), r))
  {
    var all := log + [r];
    assert all[..|all| - 1] == log;
    assert forall i :: 0 <= i < |log| ==> all[..i] == log[..i] && all[i] == log[i];
    assert all[|log|] == r && all[..|log|] == log;
  }

  /** Two transitions of a key are consecutive ones of one process and
      incarnation, or another record of the key lies between them: for
      neighbouring transitions, a gap marker. */
  ghost predicate GapComplete(log: seq<Record>, k: Key) {
    forall i, j :: 0 <= i < j < |log| && IsMoved(log[i], k) && IsMoved(log[j], k) ==>
                     Consecutive(log[i], log[j]) || exists m :: i < m < j && KeyOf(log[m]) == k
  }

  /** Outages open and close in turn, beginning with an opening. */
  ghost predicate Alternates(log: seq<Record>, k: Key) {
    && (forall i, j :: 0 <= i < j < |log| && IsMark(log[i], k, CollectionFailed)
                       && IsMark(log[j], k, CollectionFailed) ==>
                         exists m :: i < m < j && IsMark(log[m], k, CollectionResumed))
    && (forall j :: 0 <= j < |log| && IsMark(log[j], k, CollectionResumed) ==>
                      exists m :: 0 <= m < j && IsMark(log[m], k, CollectionFailed)
                                  && forall n :: m < n < j ==> !IsMark(log[n], k, CollectionResumed))
  }

  lemma {:induction false} ScanLast(log: seq<Record>, k: Key, i: nat)
    requires i < |log| && IsMoved(log[i], k) && forall m :: i < m < |log| ==> KeyOf(log[m]) != k
    ensures Scan(log, k).last == Some(log[i])
  {
    var n := |log| - 1;
    if i < n {
      ScanLast(log[..n], k, i);
    }
  }

  lemma {:induction false} ScanOutage(log: seq<Record>, k: Key, i: nat)
    requires i < |log| && IsMark(log[i], k, CollectionFailed)
    ensures !Scan(log, k).outage ==> exists m :: i < m < |log| && IsMark(log[m], k, CollectionResumed)
  {
    var n := |log| - 1;
    if i < n {
      ScanOutage(log[..n], k, i);
      if !Scan(log[..n], k).outage {
        var m :| i < m < |log[..n]| && IsMark(log[..n][m], k, CollectionResumed);
        assert IsMark(log[m], k, CollectionResumed);
      }
    }
  }

  lemma {:induction false} ScanOpened(log: seq<Record>, k: Key)
    requires Scan(log, k).outage
    ensures exists m :: 0 <= m < |log| && IsMark(log[m], k, CollectionFailed)
                        && forall n :: m < n < |log| ==> !IsMark(log[n], k, CollectionResumed)
  {
    var n := |log| - 1;
    if !IsMark(log[n], k, CollectionFailed) {
      ScanOpened(log[..n], k);
      var m :| 0 <= m < n && IsMark(log[..n][m], k, CollectionFailed)
               && forall x :: m < x < n ==> !IsMark(log[..n][x], k, CollectionResumed);
      assert IsMark(log[m], k, CollectionFailed);
      forall x | m < x < |log| ensures !IsMark(log[x], k, CollectionResumed) {
        if x < n {
          assert log[..n][x] == log[x];
        }
      }
    }
  }

  lemma LegalReads(log: seq<Record>, k: Key)
    requires LegalLog(log, k)
    ensures GapComplete(log, k) && Alternates(log, k)
  {
    forall i, j | 0 <= i < j < |log| && IsMoved(log[i], k) && IsMoved(log[j], k)
      ensures Consecutive(log[i], log[j]) || exists m :: i < m < j && KeyOf(log[m]) == k
    {
      if forall m :: i < m < j ==> KeyOf(log[m]) != k {
        ScanLast(log[..j], k, i);
      }
    }
    forall i, j | 0 <= i < j < |log| && IsMark(log[i], k, CollectionFailed) && IsMark(log[j], k, CollectionFailed)
      ensures exists m :: i < m < j && IsMark(log[m], k, CollectionResumed)
    {
      ScanOutage(log[..j], k, i);
      var m :| i < m < j && IsMark(log[..j][m], k, CollectionResumed);
      assert IsMark(log[m], k, CollectionResumed);
    }
    forall j | 0 <= j < |log| && IsMark(log[j], k, CollectionResumed)
      ensures exists m :: 0 <= m < j && IsMark(log[m], k, CollectionFailed)
                          && forall n :: m < n < j ==> !IsMark(log[n], k, CollectionResumed)
    {
      ScanOpened(log[..j], k);
      var m :| 0 <= m < j && IsMark(log[..j][m], k, CollectionFailed)
               && forall x :: m < x < j ==> !IsMark(log[..j][x], k, CollectionResumed);
      assert IsMark(log[m], k, CollectionFailed);
      forall n | m < n < j ensures !IsMark(log[n], k, CollectionResumed) {
        assert log[..j][n] == log[n];
      }
    }
  }

  // ---------------------------------------------------------------------------
  // Batches of records for one key

  function SeenAll(w: Watch, rs: seq<Record>): Watch {
    if rs == [] then w else Seen(SeenAll(w, rs[..|rs| - 1]), rs[|rs| - 1])
  }

  ghost predicate LegalRun(w: Watch, rs: seq<Record>) {
    rs == [] || (LegalRun(w, rs[..|rs| - 1]) && Legal(SeenAll(w, rs[..|rs| - 1]), rs[|rs| - 1]))
  }

  ghost predicate AllOf(rs: seq<Record>, k: Key) {
    forall i :: 0 <= i < |rs| ==> KeyOf(rs[i]) == k
  }

  lemma {:induction false} RunConcat(w: Watch, a: seq<Record>, b: seq<Record>)
    ensures SeenAll(w, a + b) == SeenAll(SeenAll(w, a), b)
    ensures LegalRun(w, a + b) <==> LegalRun(w, a) && LegalRun(SeenAll(w, a), b)
  {
    if b == [] {
      assert a + b == a;
    } else {
      var n := |b| - 1;
      RunConcat(w, a, b[..n]);
      assert (a + b)[..|a + b| - 1] == a + b[..n];
    }
  }

  lemma {:induction false} ScanBatch(log: seq<Record>, rs: seq<Record>, k: Key, other: Key)
    requires AllOf(rs, k)
    ensures Scan(log + rs, k) == SeenAll(Scan(log, k), rs)
    ensures LegalLog(log + rs, k) <==> LegalLog(log, k) && LegalRun(Scan(log, k), rs)
    ensures other != k ==> Scan(log + rs, other) == Scan(log, other)
                           && (LegalLog(log + rs, other) <==> LegalLog(log, other))
  {
    if rs == [] {
      assert log + rs == log;
    } else {
      var n := |rs| - 1;
      ScanBatch(log, rs[..n], k, other);
      assert log + rs == log + rs[..n] + [rs[n]];
      ScanSnoc(log + rs[..n], rs[n], k);
      ScanSnoc(log + rs[..n], rs[n], other);
    }
  }

  /** The last transition seen is the one the cursor stands at. */
  ghost predicate Tracks(w: Watch, p: Place) {
    w.last.Some? ==>
      && w.last.value.body.Moved? && w.last.value.processAt == p.processAt
      && w.last.value.incarnation == p.incarnation && w.last.value.body.transition.sequence == p.sequence
  }

  lemma MarkerRun(w: Watch, b: bool, r: Record)
    requires r.body.Mark? && (b ==> Legal(w, r))
    ensures LegalRun(w, WhenMark(b, r)) && SeenAll(w, WhenMark(b, r)) == if b then Seen(w, r) else w
  {}

  predicate Neutral(r: Record) {
    r.body.Mark? && r.body.gap != CollectionFailed && r.body.gap != CollectionResumed
  }

  lemma TwoMarks(w: Watch, a: seq<Record>, b: bool, r: Record)
    requires LegalRun(w, a) && Neutral(r)
    ensures LegalRun(w, a + WhenMark(b, r)) && SeenAll(w, a + WhenMark(b, r)).outage == SeenAll(w, a).outage
    ensures SeenAll(w, a + WhenMark(b, r)).last == if b then None else SeenAll(w, a).last
  {
    RunConcat(w, a, WhenMark(b, r));
    MarkerRun(SeenAll(w, a), b, r);
  }

  /** Every marker is in place, an outage is closed, and the last transition
      stays the reference only if the ring reaches back to it. */
  lemma MarkersLegal(w: Watch, k: Key, known: bool, p: Place, incarnation: string, ring: Ring, now: Time)
    requires w.outage == p.failed && Tracks(w, p) && (!known ==> p == Unseen())
    ensures var ms, from := Markers(k, known, p, incarnation, ring, now), From(known, p, incarnation, ring.startedAt);
            && AllOf(ms, k) && LegalRun(w, ms)
            && var v := SeenAll(w, ms);
            && !v.outage
            && (v.last.Some? ==> Tracks(v, Place(ring.startedAt, incarnation, from, false, true))
                                 && ring.dropped <= from)
  {
    var restart, from := Restart(known, p, incarnation, ring.startedAt), From(known, p, incarnation, ring.startedAt);
    var resumed := Marker(k, incarnation, ring.startedAt, CollectionResumed, now);
    var missing := Marker(k, incarnation, ring.startedAt, RingHistoryMissing, now);
    var regressed := Marker(k, incarnation, ring.startedAt, SequenceRegressed, now);
    var restarted := if restart.Some? then Marker(k, incarnation, ring.startedAt, restart.value, now) else missing;
    hide Regressed;
    var back := Regressed(p, ring, from);
    var m1 := WhenMark(p.failed, resumed);
    var m2 := m1 + WhenMark(restart.Some?, restarted);
    var m3 := m2 + WhenMark(ring.dropped > from, missing);
    var m4 := m3 + WhenMark(back, regressed);
    assert Markers(k, known, p, incarnation, ring, now) == m4;
    hide LegalRun, SeenAll, Legal, WhenMark, AllOf;
    MarkersOwn(k, known, p, incarnation, ring, now);
    MarkerLegal(w, p.failed, resumed);
    TwoMarks(w, m1, restart.Some?, restarted);
    TwoMarks(w, m2, ring.dropped > from, missing);
    TwoMarks(w, m3, back, regressed);
  }

  lemma MarkersOwn(k: Key, known: bool, p: Place, incarnation: string, ring: Ring, now: Time)
    ensures AllOf(Markers(k, known, p, incarnation, ring, now), k)
  {}

  lemma MarkerLegal(w: Watch, b: bool, r: Record)
    requires r.body == Mark(CollectionResumed) && w.outage == b
    ensures LegalRun(w, WhenMark(b, r)) && SeenAll(w, WhenMark(b, r)) == Watch(if b then None else w.last, false)
  {
    MarkerRun(w, b, r);
  }

  /** Where the cursor stands after `n` transitions of the ring. */
  function HighAfter(ring: Ring, from: U64, n: nat): int {
    if n > 0 && ring.dropped + n > from then ring.dropped + n else from
  }

  lemma {:induction false} HighIs(ring: Ring, from: U64, n: nat)
    requires ValidRing(ring) && n <= |ring.events|
    ensures HighWater(ring.events[..n], from) == HighAfter(ring, from, n)
  {
    if n > 0 {
      HighIs(ring, from, n - 1);
      assert ring.events[..n][..n - 1] == ring.events[..n - 1];
    }
  }

  ghost predicate Follows(w: Watch, incarnation: string, ring: Ring, high: int) {
    w.last.Some? ==>
      && w.last.value.body.Moved? && w.last.value.processAt == ring.startedAt && w.last.value.incarnation == incarnation
      && w.last.value.body.transition.sequence == high && ring.dropped <= high
  }

  lemma OneMoved(w: Watch, k: Key, incarnation: string, ring: Ring, from: U64, now: Time, n: nat)
    requires ValidRing(ring) && n < |ring.events| && Follows(w, incarnation, ring, HighAfter(ring, from, n))
    ensures var r := MovedRecord(k, incarnation, ring.startedAt, ring.events[n], now);
            if ring.events[n].sequence > HighAfter(ring, from, n) then
              Legal(w, r) && Follows(Seen(w, r), incarnation, ring, HighAfter(ring, from, n + 1))
              && Seen(w, r).outage == w.outage
            else Follows(w, incarnation, ring, HighAfter(ring, from, n + 1))
  {}

  lemma FreshNext(k: Key, incarnation: string, at: Time, es: seq<Transition>, from: U64, now: Time, n: nat)
    requires n < |es|
    ensures Fresh(k, incarnation, at, es[..n + 1], from, now)
         == Fresh(k, incarnation, at, es[..n], from, now)
            + WhenMark(es[n].sequence > HighWater(es[..n], from), MovedRecord(k, incarnation, at, es[n], now))
    ensures var high := HighWater(es[..n], from);
            HighWater(es[..n + 1], from) == if es[n].sequence > high then es[n].sequence else high
  {
    assert es[..n + 1][..n] == es[..n];
  }

  /** The transitions of a valid ring follow each other and the cursor. */
  lemma {:induction false} FreshLegal(w: Watch, k: Key, incarnation: string, ring: Ring, from: U64, now: Time, n: nat)
    requires ValidRing(ring) && n <= |ring.events| && Follows(w, incarnation, ring, from)
    ensures var rs := Fresh(k, incarnation, ring.startedAt, ring.events[..n], from, now);
            && AllOf(rs, k) && LegalRun(w, rs) && SeenAll(w, rs).outage == w.outage
            && Follows(SeenAll(w, rs), incarnation, ring, HighAfter(ring, from, n))
  {
    hide ValidRing, Follows, HighAfter, HighWater, Fresh, Legal;
    if n > 0 {
      FreshLegal(w, k, incarnation, ring, from, now, n - 1);
      FreshNext(k, incarnation, ring.startedAt, ring.events, from, now, n - 1);
      HighIs(ring, from, n - 1);
      var init := Fresh(k, incarnation, ring.startedAt, ring.events[..n - 1], from, now);
      var r := MovedRecord(k, incarnation, ring.startedAt, ring.events[n - 1], now);
      OneMoved(SeenAll(w, init), k, incarnation, ring, from, now, n - 1);
      assert (init + [r])[..|init|] == init && init + [] == init;
    } else {
      FreshNothing(k, incarnation, ring, from, now);
    }
  }

  lemma FreshNothing(k: Key, incarnation: string, ring: Ring, from: U64, now: Time)
    ensures Fresh(k, incarnation, ring.startedAt, ring.events[..0], from, now) == []
    ensures HighWater(ring.events[..0], from) == from == HighAfter(ring, from, 0)
  {}

  /** How many transitions of the ring are already archived. */
  function Known(ring: Ring, from: U64): nat {
    if from <= ring.dropped then 0
    else if from - ring.dropped < |ring.events| then from - ring.dropped
    else |ring.events|
  }

  function MovedRecords(k: Key, incarnation: string, at: Time, es: seq<Transition>, now: Time): seq<Record> {
    seq(|es|, i requires 0 <= i < |es| => MovedRecord(k, incarnation, at, es[i], now))
  }

  lemma HighExactly(ring: Ring, from: U64, n: nat)
    requires ValidRing(ring) && n < |ring.events|
    ensures ring.events[n].sequence > HighWater(ring.events[..n], from) <==> Known(ring, from) <= n
    ensures ValidRing(ring.(events := ring.events[..n]))
  {
    HighIs(ring, from, n);
  }

  lemma MovedSnoc(k: Key, incarnation: string, at: Time, es: seq<Transition>, t: Transition, now: Time)
    ensures MovedRecords(k, incarnation, at, es + [t], now)
         == MovedRecords(k, incarnation, at, es, now) + [MovedRecord(k, incarnation, at, t, now)]
  {}

  lemma SplitLast<T>(s: seq<T>, x: nat)
    requires x < |s|
    ensures s[x..] == s[..|s| - 1][x..] + [s[|s| - 1]]
  {}

  /** A poll archives exactly the ring's transitions past the cursor: none that
      is visible is skipped, none is archived twice. */
  lemma {:induction false} FreshExactly(k: Key, incarnation: string, ring: Ring, from: U64, now: Time)
    requires ValidRing(ring)
    ensures Fresh(k, incarnation, ring.startedAt, ring.events, from, now)
         == MovedRecords(k, incarnation, ring.startedAt, ring.events[Known(ring, from)..], now)
    decreases |ring.events|
  {
    var n := |ring.events| - 1;
    if n >= 0 {
      var init := ring.(events := ring.events[..n]);
      FreshExactly(k, incarnation, init, from, now);
      HighExactly(ring, from, n);
      hide HighWater, ValidRing, MovedRecords;
      var was, x := Known(init, from), Known(ring, from);
      if x <= n {
        assert was == x && init.events == ring.events[..n];
        SplitLast(ring.events, x);
        MovedSnoc(k, incarnation, ring.startedAt, init.events[was..], ring.events[n], now);
      } else {
        assert ring.events[x..] == [] && init.events[was..] == [];
      }
    }
  }

  // ---------------------------------------------------------------------------
  // What every poll keeps

  ghost predicate KeyOk(s: Shelf, k: Key) {
    && LegalLog(s.log, k) && Scan(s.log, k).outage == PlaceOf(s, k).failed && Tracks(Scan(s.log, k), PlaceOf(s, k))
  }

  ghost predicate AllKeysOk(s: Shelf) {
    forall k: Key :: KeyOk(s, k)
  }

  lemma FiledOk(s: Shelf, k: Key, rs: seq<Record>, p: Place)
    requires AllKeysOk(s) && AllOf(rs, k) && LegalRun(Scan(s.log, k), rs)
    requires SeenAll(Scan(s.log, k), rs).outage == p.failed && Tracks(SeenAll(Scan(s.log, k), rs), p)
    ensures AllKeysOk(Filed(s, k, rs, p))
  {
    hide LegalLog, LegalRun, Scan, SeenAll, Tracks, AllOf;
    forall o: Key ensures KeyOk(Filed(s, k, rs, p), o) {
      assert KeyOk(s, o) && KeyOk(s, k);
      ScanBatch(s.log, rs, k, o);
    }
  }

  lemma PollSourceOk(s: Shelf, k: Key, incarnation: string, ring: Ring, now: Time)
    requires AllKeysOk(s) && ValidRing(ring)
    ensures AllKeysOk(PollSource(s, k, incarnation, ring, now))
  {
    hide LegalRun, LegalLog, Scan, SeenAll, Markers, Fresh, HighWater, From, ValidRing;
    assert KeyOk(s, k);
    var known, p, w := k in s.places, PlaceOf(s, k), Scan(s.log, k);
    var from := From(known, p, incarnation, ring.startedAt);
    var ms := Markers(k, known, p, incarnation, ring, now);
    var fs := Fresh(k, incarnation, ring.startedAt, ring.events, from, now);
    MarkersLegal(w, k, known, p, incarnation, ring, now);
    FreshLegal(SeenAll(w, ms), k, incarnation, ring, from, now, |ring.events|);
    HighIs(ring, from, |ring.events|);
    assert ring.events[..|ring.events|] == ring.events;
    RunConcat(w, ms, fs);
    FiledOk(s, k, ms + fs, Place(ring.startedAt, incarnation, HighWater(ring.events, from), false, true));
  }

  lemma RestSourceOk(s: Shelf, k: Key, now: Time)
    requires AllKeysOk(s)
    ensures AllKeysOk(RestSource(s, k, now))
  {
    assert KeyOk(s, k);
    if k in s.places {
      var p := s.places[k];
      var r := Marker(k, p.incarnation, p.processAt, CollectionResumed, now);
      MarkerLegal(Scan(s.log, k), p.failed, r);
      FiledOk(s, k, WhenMark(p.failed, r), p.(active := false, failed := false));
    }
  }

  lemma FailSourceOk(s: Shelf, k: Key, now: Time)
    requires AllKeysOk(s)
    ensures AllKeysOk(FailSource(s, k, now))
  {
    assert KeyOk(s, k);
    var p := PlaceOf(s, k);
    if !p.failed {
      var r := Marker(k, p.incarnation, p.processAt, CollectionFailed, now);
      MarkerRun(Scan(s.log, k), true, r);
      FiledOk(s, k, [r], p.(failed := true));
    }
  }

  predicate ValidRings(status: Status) {
    status.error == "" ==>
      && (status.live.Some? ==> ValidRing(status.live.value))
      && (status.availability.Some? ==> ValidRing(status.availability.value))
      && (status.stage.Some? ==> ValidRing(status.stage.value))
  }

  lemma PollMemberOk(s: Shelf, status: Status, now: Time)
    requires AllKeysOk(s) && ValidRings(status)
    ensures AllKeysOk(PollMember(s, status, now))
  {
    hide AllKeysOk, PollSource, RestSource, FailSource, ValidRing;
    var live, availability, stage :=
      Key(status.node, StatePublisher), Key(status.node, PrimaryCoordinator), Key(status.node, ReplicaStage);
    if status.error != "" {
      FailSourceOk(s, live, now);
      FailSourceOk(FailSource(s, live, now), availability, now);
      FailSourceOk(FailSource(FailSource(s, live, now), availability, now), stage, now);
    } else {
      var s1 := if status.live.Some? then PollSource(s, live, status.incarnation, status.live.value, now) else s;
      if status.live.Some? {
        PollSourceOk(s, live, status.incarnation, status.live.value, now);
      }
      PollOrRestOk(s1, availability, status.incarnation, status.availability, now);
      PollOrRestOk(PollOrRest(s1, availability, status.incarnation, status.availability, now),
                   stage, status.incarnation, status.stage, now);
    }
  }

  lemma PollOrRestOk(s: Shelf, k: Key, incarnation: string, ring: Option<Ring>, now: Time)
    requires AllKeysOk(s) && (ring.Some? ==> ValidRing(ring.value))
    ensures AllKeysOk(PollOrRest(s, k, incarnation, ring, now))
  {
    if ring.Some? {
      PollSourceOk(s, k, incarnation, ring.value, now);
    } else {
      RestSourceOk(s, k, now);
    }
  }

  lemma {:induction false} OwnValid(statuses: seq<Status>, member: string)
    requires forall i :: 0 <= i < |statuses| ==> ValidRings(statuses[i])
    ensures forall i :: 0 <= i < |Own(statuses, member)| ==> ValidRings(Own(statuses, member)[i])
  {
    if statuses != [] {
      OwnValid(statuses[..|statuses| - 1], member);
    }
  }

  lemma {:induction false} PollAllOk(s: Shelf, members: seq<string>, statuses: seq<Status>, now: Time)
    requires AllKeysOk(s) && forall i :: 0 <= i < |statuses| ==> ValidRings(statuses[i])
    ensures AllKeysOk(PollAll(s, members, statuses, now))
  {
    hide AllKeysOk, PollMember;
    if members != [] {
      var n := |members| - 1;
      PollAllOk(s, members[..n], statuses, now);
      OwnValid(statuses, members[n]);
      PollMemberOk(PollAll(s, members[..n], statuses, now), StatusOf(statuses, members[n]), now);
    }
  }

  // ---------------------------------------------------------------------------
  // Runs with failing writes and deaths

  /** `written` says the file was replaced, `reported` that persistArchive said
      so, `alive` that the process lived to see it. */
  datatype Step = Poll(statuses: seq<Status>, now: Time, written: bool, reported: bool, alive: bool) | Stop | Start

  /** The journal file and, while it runs, the collector's copy. */
  datatype Collector = Collector(file: Shelf, memory: Option<Shelf>)

  function StepOf(c: Collector, members: seq<string>, a: Step): Collector {
    match a
    case Start => if c.memory.None? then c.(memory := Some(c.file)) else c
    case Stop => c.(memory := None)
    case Poll(statuses, now, written, reported, alive) =>
      if c.memory.None? then c
      else
        var next := PollAll(c.memory.value, members, statuses, now);
        Collector(if written then next else c.file,
                  if !alive then None else if written && reported then Some(next) else c.memory)
  }

  function RunOf(c: Collector, members: seq<string>, steps: seq<Step>): Collector {
    if steps == [] then c else StepOf(RunOf(c, members, steps[..|steps| - 1]), members, steps[|steps| - 1])
  }

  predicate StepRings(a: Step) {
    a.Poll? ==> forall i :: 0 <= i < |a.statuses| ==> ValidRings(a.statuses[i])
  }

  lemma {:induction false} RunKeepsKeys(members: seq<string>, steps: seq<Step>)
    requires forall i :: 0 <= i < |steps| ==> StepRings(steps[i])
    ensures var c := RunOf(Collector(Shelf(map[], []), None), members, steps);
            AllKeysOk(c.file) && (c.memory.Some? ==> AllKeysOk(c.memory.value))
  {
    if steps != [] {
      hide AllKeysOk;
      var n := |steps| - 1;
      RunKeepsKeys(members, steps[..n]);
      var c, a := RunOf(Collector(Shelf(map[], []), None), members, steps[..n]), steps[n];
      if c.memory.Some? && a.Poll? {
        PollAllOk(c.memory.value, members, a.statuses, a.now);
      }
    }
  }

  /** Gap completeness: in the file and in memory, after any run over restarts,
      outages and ring overflow, for every node and source. */
  lemma GapsMarked(members: seq<string>, steps: seq<Step>, k: Key)
    requires forall i :: 0 <= i < |steps| ==> StepRings(steps[i])
    ensures var c := RunOf(Collector(Shelf(map[], []), None), members, steps);
            && GapComplete(c.file.log, k) && Alternates(c.file.log, k)
            && (c.memory.Some? ==> GapComplete(c.memory.value.log, k) && Alternates(c.memory.value.log, k))
  {
    RunKeepsKeys(members, steps);
    var c := RunOf(Collector(Shelf(map[], []), None), members, steps);
    assert KeyOk(c.file, k);
    LegalReads(c.file.log, k);
    if c.memory.Some? {
      assert KeyOk(c.memory.value, k);
      LegalReads(c.memory.value.log, k);
    }
  }

  // ---------------------------------------------------------------------------
  // The program itself

  /** The records that are kept. */
  function Kept(log: seq<Record>): seq<Record> {
    if |log| <= RECORD_LIMIT then log else log[|log| - RECORD_LIMIT..]
  }

  /** The document as it is stored. */
  datatype Journal = Journal(members: seq<string>, places: map<Key, Place>, records: seq<Record>, retentionDropped: nat)

  /** The last records at most a thousand, the count of the others, and every
      cursor. */
  predicate Holds(j: Journal, s: Shelf) {
    j.places == s.places && j.records == Kept(s.log) && j.retentionDropped + |j.records| == |s.log|
  }

  /** The copy a poll works on; `shelf` is what it stands for. */
  class Draft {
    var journal: Journal
    ghost var shelf: Shelf

    ghost predicate Valid()
      reads this
    {
      Holds(journal, shelf)
    }

    constructor (journal: Journal, ghost shelf: Shelf)
      requires Holds(journal, shelf)
      ensures Valid() && this.journal == journal && this.shelf == shelf
    {
      this.journal, this.shelf := journal, shelf;
    }

    /** appendArchiveRecord. */
    method Append(r: Record)
      requires Valid()
      modifies this
      ensures Valid() && shelf == old(shelf).(log := old(shelf).log + [r])
      ensures journal.members == old(journal).members && journal.places == old(journal).places
    {
      var records, dropped := journal.records + [r], journal.retentionDropped;
      if |records| > RECORD_LIMIT {
        dropped := dropped + (|records| - RECORD_LIMIT);
        records := records[|records| - RECORD_LIMIT..];
      }
      journal := journal.(records := records, retentionDropped := dropped);
      shelf := shelf.(log := shelf.log + [r]);
    }

    method AppendWhen(b: bool, r: Record)
      requires Valid()
      modifies this
      ensures Valid() && shelf == old(shelf).(log := old(shelf).log + WhenMark(b, r))
      ensures journal.members == old(journal).members && journal.places == old(journal).places
    {
      if b {
        Append(r);
      }
    }

    method Move(k: Key, p: Place)
      requires Valid()
      modifies this
      ensures Valid() && shelf == old(shelf).(places := old(shelf).places[k := p])
              && journal.members == old(journal).members
    {
      journal := journal.(places := journal.places[k := p]);
      shelf := shelf.(places := shelf.places[k := p]);
    }

    /** The first half of captureSource: the markers. */
    method MarkGaps(k: Key, known: bool, p: Place, incarnation: string, ring: Ring, now: Time) returns (sequence: U64)
      requires Valid()
      modifies this
      ensures Valid() && shelf == old(shelf).(log := old(shelf).log + Markers(k, known, p, incarnation, ring, now))
      ensures journal.members == old(journal).members && journal.places == old(journal).places
      ensures sequence == From(known, p, incarnation, ring.startedAt)
    {
      hide Regressed, Holds, Kept, WhenMark;
      ghost var log := shelf.log;
      AppendWhen(p.failed, Marker(k, incarnation, ring.startedAt, CollectionResumed, now));
      ghost var resumed := WhenMark(p.failed, Marker(k, incarnation, ring.startedAt, CollectionResumed, now));
      ghost var restarted := MarkRestart(k, known, p, incarnation, ring.startedAt, now);
      sequence := if Restart(known, p, incarnation, ring.startedAt).Some? then 0 else p.sequence;
      AppendWhen(ring.dropped > sequence, Marker(k, incarnation, ring.startedAt, RingHistoryMissing, now));
      ghost var missing := WhenMark(ring.dropped > sequence,
                                    Marker(k, incarnation, ring.startedAt, RingHistoryMissing, now));
      AppendWhen(Regressed(p, ring, sequence), Marker(k, incarnation, ring.startedAt, SequenceRegressed, now));
      ghost var regressed := WhenMark(Regressed(p, ring, sequence),
                                      Marker(k, incarnation, ring.startedAt, SequenceRegressed, now));
      assert Markers(k, known, p, incarnation, ring, now) == resumed + restarted + missing + regressed;
      assert shelf.log == log + (resumed + restarted + missing + regressed);
    }

    /** The marker for numbers that start over. */
    method MarkRestart(k: Key, known: bool, p: Place, incarnation: string, startedAt: Time, now: Time)
      returns (ghost marks: seq<Record>)
      requires Valid()
      modifies this
      ensures Valid() && shelf == old(shelf).(log := old(shelf).log + marks)
      ensures journal.members == old(journal).members && journal.places == old(journal).places
      ensures var restart := Restart(known, p, incarnation, startedAt);
              marks == if restart.Some? then [Marker(k, incarnation, startedAt, restart.value, now)] else []
    {
      hide Holds, Kept;
      marks := [];
      if !known || p.processAt == ZERO_TIME {
        Append(Marker(k, incarnation, startedAt, InitialObservation, now));
        marks := [Marker(k, incarnation, startedAt, InitialObservation, now)];
      } else if p.incarnation != incarnation {
        Append(Marker(k, incarnation, startedAt, IncarnationChanged, now));
        marks := [Marker(k, incarnation, startedAt, IncarnationChanged, now)];
      } else if p.processAt != startedAt {
        Append(Marker(k, incarnation, startedAt, SourceChanged, now));
        marks := [Marker(k, incarnation, startedAt, SourceChanged, now)];
      }
    }

    /** captureSource. */
    method CaptureSource(k: Key, incarnation: string, ring: Ring, now: Time)
      requires Valid()
      modifies this
      ensures Valid() && shelf == PollSource(old(shelf), k, incarnation, ring, now)
      ensures journal.members == old(journal).members
    {
      hide Markers, From, Kept, Holds, Fresh, HighWater;
      var known := k in journal.places;
      var p := if known then journal.places[k] else Unseen();
      assert known == (k in shelf.places) && p == PlaceOf(shelf, k) by { HoldsPlaces(journal, shelf); }
      var from := MarkGaps(k, known, p, incarnation, ring, now);
      var sequence := AppendFresh(k, incarnation, ring, from, now);
      Move(k, Place(ring.startedAt, incarnation, sequence, false, true));
    }

    /** The second half of captureSource: transitions past the cursor. */
    method AppendFresh(k: Key, incarnation: string, ring: Ring, from: U64, now: Time) returns (sequence: U64)
      requires Valid()
      modifies this
      ensures Valid() && journal.members == old(journal).members && journal.places == old(journal).places
      ensures var taken := Fresh(k, incarnation, ring.startedAt, ring.events, from, now);
              shelf == old(shelf).(log := old(shelf).log + taken)
      ensures sequence == HighWater(ring.events, from)
    {
      hide Fresh, HighWater, Holds, Kept;
      FreshNothing(k, incarnation, ring, from, now);
      sequence := from;
      for i := 0 to |ring.events|
        invariant Valid() && journal.members == old(journal).members && journal.places == old(journal).places
        invariant sequence == HighWater(ring.events[..i], from)
        invariant var taken := Fresh(k, incarnation, ring.startedAt, ring.events[..i], from, now);
                  shelf == old(shelf).(log := old(shelf).log + taken)
      {
        FreshNext(k, incarnation, ring.startedAt, ring.events, from, now, i);
        var t := ring.events[i];
        if t.sequence > sequence {
          Append(MovedRecord(k, incarnation, ring.startedAt, t, now));
          sequence := t.sequence;
        }
      }
      assert ring.events[..|ring.events|] == ring.events;
    }

    method RestOrCapture(k: Key, incarnation: string, ring: Option<Ring>, now: Time)
      requires Valid()
      modifies this
      ensures Valid() && shelf == PollOrRest(old(shelf), k, incarnation, ring, now)
      ensures journal.members == old(journal).members
    {
      hide PollSource, Kept;
      if ring.Some? {
        CaptureSource(k, incarnation, ring.value, now);
      } else if k in journal.places {
        var p := journal.places[k];
        AppendWhen(p.failed, Marker(k, p.incarnation, p.processAt, CollectionResumed, now));
        Move(k, p.(active := false, failed := false));
      }
    }

    method Fail(k: Key, now: Time)
      requires Valid()
      modifies this
      ensures Valid() && shelf == FailSource(old(shelf), k, now)
      ensures journal.members == old(journal).members
    {
      hide Kept;
      var known := k in journal.places;
      var p := if known then journal.places[k] else Unseen();
      if k.source != StatePublisher && (!known || !p.active) {
        return;
      }
      if !p.failed {
        Append(Marker(k, p.incarnation, p.processAt, CollectionFailed, now));
        Move(k, p.(failed := true));
      }
    }

    /** The body of capture's loop over members. */
    method CaptureMember(status: Status, now: Time)
      requires Valid()
      modifies this
      ensures Valid() && shelf == PollMember(old(shelf), status, now)
      ensures journal.members == old(journal).members
    {
      hide PollSource, RestSource, FailSource, Holds, PollOrRest;
      if status.error != "" {
        Fail(Key(status.node, StatePublisher), now);
        Fail(Key(status.node, PrimaryCoordinator), now);
        Fail(Key(status.node, ReplicaStage), now);
        return;
      }
      if status.live.Some? {
        CaptureSource(Key(status.node, StatePublisher), status.incarnation, status.live.value, now);
      }
      RestOrCapture(Key(status.node, PrimaryCoordinator), status.incarnation, status.availability, now);
      RestOrCapture(Key(status.node, ReplicaStage), status.incarnation, status.stage, now);
    }
  }

  lemma HoldsPlaces(j: Journal, s: Shelf)
    requires Holds(j, s)
    ensures j.places == s.places
  {}

  /** Statuses by member, as far as they belong to the inventory. */
  method GroupStatuses(members: seq<string>, statuses: seq<Status>) returns (byMember: map<string, seq<Status>>)
    ensures forall m :: m in members ==> (if m in byMember then byMember[m] else []) == Own(statuses, m)
  {
    byMember := map[];
    for i := 0 to |statuses|
      invariant forall m :: m in members ==> (if m in byMember then byMember[m] else []) == Own(statuses[..i], m)
    {
      assert statuses[..i + 1][..i] == statuses[..i];
      var node := statuses[i].node;
      if node in members {
        byMember := byMember[node := (if node in byMember then byMember[node] else []) + [statuses[i]]];
      }
    }
    assert statuses[..|statuses|] == statuses;
  }

  class Archive {
    var journal: Journal
    ghost var shelf: Shelf

    ghost predicate Valid()
      reads this
    {
      Holds(journal, shelf)
    }

    /** capture: work on a copy, and keep it only once it is stored. */
    method Capture(statuses: seq<Status>, now: Time, persisted: bool)
      requires Valid()
      modifies this
      ensures Valid() && journal.members == old(journal).members
      ensures persisted ==> shelf == PollAll(old(shelf), journal.members, statuses, now)
      ensures !persisted ==> journal == old(journal) && shelf == old(shelf)
    {
      hide PollMember, Kept, Holds, Own;
      var members := journal.members;
      var byMember := GroupStatuses(members, statuses);
      var draft := new Draft(journal, shelf);
      for i := 0 to |members|
        invariant draft.Valid() && fresh(draft) && draft.journal.members == members && unchanged(this)
        invariant draft.shelf == PollAll(shelf, members[..i], statuses, now)
      {
        assert members[..i + 1][..i] == members[..i];
        var own := if members[i] in byMember then byMember[members[i]] else [];
        assert members[i] in members && own == Own(statuses, members[i]);
        var status := if |own| == 1 then own[0] else Status(members[i], "", "member_inventory", None, None, None);
        draft.CaptureMember(status, now);
      }
      assert members[..|members|] == members;
      if persisted {
        journal, shelf := draft.journal, draft.shelf;
      }
    }
  }
}
