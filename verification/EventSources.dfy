/** Where the records of the event archive come from: each transition from the
    ring its own source published, every visible one past the cursor, and every
    failed poll as an open outage (cmd/halro-ha-health/event_archive.go). */
module EventSources {
  import opened Basics
  import opened EventArchive

  /** The ring a source publishes in a member's status. */
  function RingOf(status: Status, source: Source): Option<Ring> {
    match source
    case StatePublisher => status.live
    case PrimaryCoordinator => status.availability
    case ReplicaStage => status.stage
  }

  /** The record is a transition that this status published for its source. */
  predicate FromRing(r: Record, status: Status, now: Time) {
    && r.body.Moved? && r.node == status.node && r.incarnation == status.incarnation && r.observedAt == now
    && status.error == ""
    && var ring := RingOf(status, r.source);
    ring.Some? && r.processAt == ring.value.startedAt && r.body.transition in ring.value.events
  }

  // ---------------------------------------------------------------------------
  // One source

  lemma {:induction false} FreshFrom(k: Key, incarnation: string, at: Time, es: seq<Transition>, from: U64, now: Time)
    ensures forall r :: r in Fresh(k, incarnation, at, es, from, now) ==>
                          r.body.Moved? && r.body.transition in es
                          && r == MovedRecord(k, incarnation, at, r.body.transition, now)
  {
    if es != [] {
      FreshFrom(k, incarnation, at, es[..|es| - 1], from, now);
    }
  }

  /** New records of a batch: markers of the key, or transitions of the ring. */
  ghost predicate OwnRecords(rs: seq<Record>, k: Key, incarnation: string, ring: Ring, now: Time) {
    forall r :: r in rs ==>
                  && KeyOf(r) == k
                  && (r.body.Moved? ==>
                        && r.incarnation == incarnation && r.processAt == ring.startedAt && r.observedAt == now
                        && r.body.transition in ring.events)
  }

  lemma MarkersMark(k: Key, known: bool, p: Place, incarnation: string, ring: Ring, now: Time)
    ensures forall r :: r in Markers(k, known, p, incarnation, ring, now) ==> KeyOf(r) == k && r.body.Mark?
  {
    hide Restart, From, Regressed;
  }

  lemma PolledOwn(k: Key, known: bool, p: Place, incarnation: string, ring: Ring, now: Time)
    ensures OwnRecords(Polled(k, known, p, incarnation, ring, now).0, k, incarnation, ring, now)
  {
    hide Fresh, Markers, From;
    MarkersMark(k, known, p, incarnation, ring, now);
    FreshFrom(k, incarnation, ring.startedAt, ring.events, From(known, p, incarnation, ring.startedAt), now);
  }

  /** What a poll of one key adds and leaves alone. */
  ghost predicate Touches(s: Shelf, t: Shelf, k: Key, incarnation: string, ring: Option<Ring>, now: Time) {
    && s.log <= t.log
    && (forall i :: |s.log| <= i < |t.log| ==> KeyOf(t.log[i]) == k && Published(t.log[i], incarnation, ring, now))
    && forall o: Key :: o != k ==> PlaceOf(t, o) == PlaceOf(s, o) && (o in t.places <==> o in s.places)
  }

  predicate Published(r: Record, incarnation: string, ring: Option<Ring>, now: Time) {
    r.body.Moved? ==>
      && ring.Some? && r.incarnation == incarnation && r.processAt == ring.value.startedAt && r.observedAt == now
      && r.body.transition in ring.value.events
  }

  lemma FiledTouches(s: Shelf, k: Key, rs: seq<Record>, p: Place, incarnation: string, ring: Ring, now: Time)
    requires OwnRecords(rs, k, incarnation, ring, now)
    ensures Touches(s, Filed(s, k, rs, p), k, incarnation, Some(ring), now)
  {
    var t := Filed(s, k, rs, p);
    forall i | |s.log| <= i < |t.log|
      ensures KeyOf(t.log[i]) == k && Published(t.log[i], incarnation, Some(ring), now) {
      assert t.log[i] in rs;
    }
  }

  lemma RestTouches(s: Shelf, k: Key, incarnation: string, now: Time)
    ensures Touches(s, RestSource(s, k, now), k, incarnation, None, now)
  {}

  lemma PollTouches(s: Shelf, k: Key, incarnation: string, ring: Option<Ring>, now: Time)
    ensures Touches(s, PollOrRest(s, k, incarnation, ring, now), k, incarnation, ring, now)
  {
    hide Polled, OwnRecords, Touches, RestSource;
    if ring.Some? {
      var (rs, p) := Polled(k, k in s.places, PlaceOf(s, k), incarnation, ring.value, now);
      PolledOwn(k, k in s.places, PlaceOf(s, k), incarnation, ring.value, now);
      FiledTouches(s, k, rs, p, incarnation, ring.value, now);
    } else {
      RestTouches(s, k, incarnation, now);
    }
  }

  lemma FailTouches(s: Shelf, k: Key, now: Time)
    ensures Touches(s, FailSource(s, k, now), k, "", None, now)
  {}

  /** What a poll files for one key: everything Polled says, and its cursor. */
  ghost predicate Files(s: Shelf, t: Shelf, k: Key, incarnation: string, ring: Ring, now: Time) {
    var (rs, p) := Polled(k, k in s.places, PlaceOf(s, k), incarnation, ring, now);
    && k in t.places && t.places[k] == p
    && s.log <= t.log && forall r :: r in rs ==> r in t.log[|s.log|..]
  }

  lemma PollFiles(s: Shelf, k: Key, incarnation: string, ring: Ring, now: Time)
    ensures Files(s, PollSource(s, k, incarnation, ring, now), k, incarnation, ring, now)
  {
    hide Polled;
    var (rs, p) := Polled(k, k in s.places, PlaceOf(s, k), incarnation, ring, now);
    assert (s.log + rs)[|s.log|..] == rs;
  }

  // ---------------------------------------------------------------------------
  // One member

  /** A whole poll of a member changes nothing of the others, and every transition
      it adds is one its source published. */
  ghost predicate MemberFrom(s: Shelf, t: Shelf, status: Status, now: Time) {
    && s.log <= t.log
    && (forall i :: |s.log| <= i < |t.log| ==>
                      t.log[i].node == status.node && (t.log[i].body.Moved? ==> FromRing(t.log[i], status, now)))
    && forall o: Key :: o.node != status.node ==> PlaceOf(t, o) == PlaceOf(s, o) && (o in t.places <==> o in s.places)
  }

  /** One step of it. */
  lemma Extends(s: Shelf, t: Shelf, u: Shelf, status: Status, source: Source, now: Time)
    requires status.error == "" && MemberFrom(s, t, status, now)
    requires Touches(t, u, Key(status.node, source), status.incarnation, RingOf(status, source), now)
    ensures MemberFrom(s, u, status, now)
  {
    forall i | |s.log| <= i < |u.log|
      ensures u.log[i].node == status.node && (u.log[i].body.Moved? ==> FromRing(u.log[i], status, now))
    {
      if i < |t.log| {
        assert u.log[i] == t.log[i];
      }
    }
  }

  function Live(s: Shelf, status: Status, now: Time): Shelf {
    if status.live.None? then s
    else PollSource(s, Key(status.node, StatePublisher), status.incarnation, status.live.value, now)
  }

  function Available(s: Shelf, status: Status, now: Time): Shelf {
    PollOrRest(Live(s, status, now), Key(status.node, PrimaryCoordinator), status.incarnation, status.availability, now)
  }

  lemma LiveTouches(s: Shelf, status: Status, now: Time)
    ensures Touches(s, Live(s, status, now), Key(status.node, StatePublisher), status.incarnation, status.live, now)
  {
    if status.live.Some? {
      PollTouches(s, Key(status.node, StatePublisher), status.incarnation, status.live, now);
    }
  }

  lemma MemberSourced(s: Shelf, status: Status, now: Time)
    ensures MemberFrom(s, PollMember(s, status, now), status, now)
  {
    var t := PollMember(s, status, now);
    if status.error == "" {
      var s1, s2 := Live(s, status, now), Available(s, status, now);
      LiveTouches(s, status, now);
      PollTouches(s1, Key(status.node, PrimaryCoordinator), status.incarnation, status.availability, now);
      PollTouches(s2, Key(status.node, ReplicaStage), status.incarnation, status.stage, now);
      hide PollSource, PollOrRest, Touches;
      Extends(s, s, s1, status, StatePublisher, now);
      Extends(s, s1, s2, status, PrimaryCoordinator, now);
      Extends(s, s2, t, status, ReplicaStage, now);
    } else {
      var s1 := FailSource(s, Key(status.node, StatePublisher), now);
      var s2 := FailSource(s1, Key(status.node, PrimaryCoordinator), now);
      FailTouches(s, Key(status.node, StatePublisher), now);
      FailTouches(s1, Key(status.node, PrimaryCoordinator), now);
      FailTouches(s2, Key(status.node, ReplicaStage), now);
      hide FailSource;
      assert s1.log <= s2.log <= t.log;
      forall i | |s.log| <= i < |t.log| ensures t.log[i].node == status.node && !t.log[i].body.Moved? {
        assert i < |s2.log| ==> t.log[i] == s2.log[i];
        assert i < |s1.log| ==> t.log[i] == s1.log[i];
      }
    }
  }

  lemma FilesWithin(s: Shelf, before: Shelf, after: Shelf, t: Shelf, k: Key, incarnation: string, ring: Ring, now: Time)
    requires Files(before, after, k, incarnation, ring, now) && s.log <= before.log && after.log <= t.log
    requires (k in before.places <==> k in s.places) && PlaceOf(before, k) == PlaceOf(s, k)
    requires k in t.places && PlaceOf(t, k) == PlaceOf(after, k)
    ensures Files(s, t, k, incarnation, ring, now)
  {
    hide Polled;
    var rs := Polled(k, k in s.places, PlaceOf(s, k), incarnation, ring, now).0;
    forall r | r in rs ensures r in t.log[|s.log|..] {
      var i :| 0 <= i < |after.log[|before.log|..]| && after.log[|before.log|..][i] == r;
      assert t.log[|s.log|..][|before.log| - |s.log| + i] == r;
    }
  }

  /** Each published ring is filed under its own source. */
  lemma MemberFiles(s: Shelf, status: Status, now: Time, source: Source)
    requires status.error == "" && RingOf(status, source).Some?
    ensures Files(s, PollMember(s, status, now), Key(status.node, source), status.incarnation,
                  RingOf(status, source).value, now)
  {
    var k, ring := Key(status.node, source), RingOf(status, source).value;
    var s1, s2, t := Live(s, status, now), Available(s, status, now), PollMember(s, status, now);
    LiveTouches(s, status, now);
    PollTouches(s1, Key(status.node, PrimaryCoordinator), status.incarnation, status.availability, now);
    PollTouches(s2, Key(status.node, ReplicaStage), status.incarnation, status.stage, now);
    hide PollSource, Files, Published;
    match source {
      case StatePublisher =>
        PollFiles(s, k, status.incarnation, ring, now);
        FilesPlace(s, s1, k, status.incarnation, ring, now);
        FilesWithin(s, s, s1, t, k, status.incarnation, ring, now);
      case PrimaryCoordinator =>
        PollFiles(s1, k, status.incarnation, ring, now);
        FilesPlace(s1, s2, k, status.incarnation, ring, now);
        FilesWithin(s, s1, s2, t, k, status.incarnation, ring, now);
      case ReplicaStage =>
        PollFiles(s2, k, status.incarnation, ring, now);
        FilesPlace(s2, t, k, status.incarnation, ring, now);
        FilesWithin(s, s2, t, t, k, status.incarnation, ring, now);
    }
  }

  lemma FilesPlace(s: Shelf, t: Shelf, k: Key, incarnation: string, ring: Ring, now: Time)
    requires Files(s, t, k, incarnation, ring, now)
    ensures k in t.places
  {}

  /** Which markers a poll of a source writes, and when. */
  lemma MarkersExactly(k: Key, known: bool, p: Place, incarnation: string, ring: Ring, now: Time, gap: Gap)
    ensures Marker(k, incarnation, ring.startedAt, gap, now) in Polled(k, known, p, incarnation, ring, now).0 <==>
            var seen := known && p.processAt != ZERO_TIME;
            var same := seen && p.incarnation == incarnation && p.processAt == ring.startedAt;
            match gap
            case CollectionFailed => false
            case CollectionResumed => p.failed
            case InitialObservation => !seen
            case IncarnationChanged => seen && p.incarnation != incarnation
            case SourceChanged => seen && p.incarnation == incarnation && p.processAt != ring.startedAt
            case RingHistoryMissing => ring.dropped > if same then p.sequence else 0
            case SequenceRegressed => same && (ring.dropped + |ring.events|) % U64_SIZE < p.sequence
  {
    var from := From(known, p, incarnation, ring.startedAt);
    FreshFrom(k, incarnation, ring.startedAt, ring.events, from, now);
    hide Fresh;
    var m := Marker(k, incarnation, ring.startedAt, gap, now);
    assert m !in Fresh(k, incarnation, ring.startedAt, ring.events, from, now);
    assert m in Polled(k, known, p, incarnation, ring, now).0 <==> m in Markers(k, known, p, incarnation, ring, now);
  }

  /** A source the member no longer has is at rest: no longer watched, its outage
      closed; a missing live ring changes nothing. */
  lemma MemberRests(s: Shelf, status: Status, now: Time, source: Source)
    requires status.error == "" && RingOf(status, source).None?
    ensures var k, t := Key(status.node, source), PollMember(s, status, now);
            && (k in t.places <==> k in s.places)
            && PlaceOf(t, k) == if source == StatePublisher then PlaceOf(s, k)
                                else PlaceOf(s, k).(active := false, failed := false)
  {
    var s1, s2, t := Live(s, status, now), Available(s, status, now), PollMember(s, status, now);
    LiveTouches(s, status, now);
    PollTouches(s1, Key(status.node, PrimaryCoordinator), status.incarnation, status.availability, now);
    PollTouches(s2, Key(status.node, ReplicaStage), status.incarnation, status.stage, now);
    hide PollSource, Published;
  }

  // ---------------------------------------------------------------------------
  // One poll of all members

  /** The member answered: one status of its own, without an error. */
  ghost predicate Answers(statuses: seq<Status>, i: nat) {
    && i < |statuses| && statuses[i].error == ""
    && forall j :: 0 <= j < |statuses| && j != i ==> statuses[j].node != statuses[i].node
  }

  lemma {:induction false} OwnNone(statuses: seq<Status>, node: string)
    requires forall j :: 0 <= j < |statuses| ==> statuses[j].node != node
    ensures Own(statuses, node) == []
  {
    if statuses != [] {
      OwnNone(statuses[..|statuses| - 1], node);
    }
  }

  lemma {:induction false} OwnOnly(statuses: seq<Status>, i: nat)
    requires i < |statuses| && forall j :: 0 <= j < |statuses| && j != i ==> statuses[j].node != statuses[i].node
    ensures Own(statuses, statuses[i].node) == [statuses[i]]
  {
    var n := |statuses| - 1;
    if i < n {
      OwnOnly(statuses[..n], i);
    } else {
      OwnNone(statuses[..n], statuses[i].node);
    }
  }

  lemma {:induction false} OwnFrom(statuses: seq<Status>, node: string)
    ensures forall x :: x in Own(statuses, node) ==> x.node == node
    ensures Own(statuses, node) == [] ==> forall i :: 0 <= i < |statuses| ==> statuses[i].node != node
  {
    var n := |statuses| - 1;
    if statuses != [] {
      OwnFrom(statuses[..n], node);
      if Own(statuses, node) == [] {
        forall i | 0 <= i < |statuses| ensures statuses[i].node != node {
          assert i < n ==> statuses[..n][i] == statuses[i];
        }
      }
    }
  }

  ghost predicate Alone(statuses: seq<Status>, node: string, i: nat) {
    && i < |statuses| && statuses[i].node == node
    && forall j :: 0 <= j < |statuses| && j != i ==> statuses[j].node != node
  }

  lemma {:induction false} OwnSingle(statuses: seq<Status>, node: string)
    requires |Own(statuses, node)| == 1
    ensures exists i: nat :: Alone(statuses, node, i) && statuses[i] == Own(statuses, node)[0]
  {
    var n := |statuses| - 1;
    var before := statuses[..n];
    assert forall j :: 0 <= j < n ==> before[j] == statuses[j];
    OwnFrom(before, node);
    if statuses[n].node == node {
      assert Own(before, node) == [];
      assert Alone(statuses, node, n);
    } else {
      OwnSingle(before, node);
      var i: nat :| Alone(before, node, i) && before[i] == Own(before, node)[0];
      assert Alone(statuses, node, i);
    }
  }

  lemma StatusFrom(statuses: seq<Status>, node: string)
    ensures StatusOf(statuses, node).node == node
    ensures StatusOf(statuses, node).error == "" ==>
              exists i: nat :: Answers(statuses, i) && statuses[i] == StatusOf(statuses, node)
    ensures forall i: nat :: Answers(statuses, i) && statuses[i].node == node ==>
                               statuses[i] == StatusOf(statuses, node)
  {
    OwnFrom(statuses, node);
    if |Own(statuses, node)| == 1 && Own(statuses, node)[0].error == "" {
      OwnSingle(statuses, node);
      var i: nat :| Alone(statuses, node, i) && statuses[i] == Own(statuses, node)[0];
      assert Answers(statuses, i);
    }
    forall i: nat | Answers(statuses, i) && statuses[i].node == node ensures statuses[i] == StatusOf(statuses, node) {
      OwnOnly(statuses, i);
    }
  }

  ghost predicate SomeRing(r: Record, statuses: seq<Status>, now: Time) {
    exists i: nat :: i < |statuses| && FromRing(r, statuses[i], now)
  }

  lemma {:induction false} PollSourced(s: Shelf, members: seq<string>, statuses: seq<Status>, now: Time)
    ensures var t := PollAll(s, members, statuses, now);
            && s.log <= t.log
            && forall i :: |s.log| <= i < |t.log| && t.log[i].body.Moved? ==> SomeRing(t.log[i], statuses, now)
    ensures var t := PollAll(s, members, statuses, now);
            forall o: Key :: o.node !in members ==> PlaceOf(t, o) == PlaceOf(s, o) && (o in t.places <==> o in s.places)
  {
    hide PollMember, FromRing;
    if members != [] {
      var n := |members| - 1;
      var t, status := PollAll(s, members[..n], statuses, now), StatusOf(statuses, members[n]);
      PollSourced(s, members[..n], statuses, now);
      MemberSourced(t, status, now);
      StatusFrom(statuses, members[n]);
      var u := PollMember(t, status, now);
      forall i | |s.log| <= i < |u.log| && u.log[i].body.Moved? ensures SomeRing(u.log[i], statuses, now) {
        if i < |t.log| {
          assert u.log[i] == t.log[i];
        } else {
          assert FromRing(u.log[i], status, now);
          ErrorFree(u.log[i], status, now);
          var x: nat :| Answers(statuses, x) && statuses[x] == status;
        }
      }
    }
  }

  lemma ErrorFree(r: Record, status: Status, now: Time)
    requires FromRing(r, status, now)
    ensures status.error == ""
  {}

  /** The transition is past where the key's cursor stands for this process and
      incarnation. */
  predicate PastCursor(s: Shelf, k: Key, incarnation: string, ring: Ring, t: Transition) {
    k in s.places && s.places[k].processAt == ring.startedAt && s.places[k].incarnation == incarnation ==>
      t.sequence > s.places[k].sequence
  }

  lemma FiledHas(s: Shelf, t: Shelf, k: Key, incarnation: string, ring: Ring, now: Time, j: nat)
    requires Files(s, t, k, incarnation, ring, now) && ValidRing(ring) && j < |ring.events|
    requires PastCursor(s, k, incarnation, ring, ring.events[j])
    ensures MovedRecord(k, incarnation, ring.startedAt, ring.events[j], now) in t.log[|s.log|..]
  {
    var from := From(k in s.places, PlaceOf(s, k), incarnation, ring.startedAt);
    FreshExactly(k, incarnation, ring, from, now);
    var x, taken := Known(ring, from), Fresh(k, incarnation, ring.startedAt, ring.events, from, now);
    assert ring.events[j].sequence > from && x <= j;
    assert taken[j - x] == MovedRecord(k, incarnation, ring.startedAt, ring.events[j], now);
    hide Markers, Fresh;
    assert taken[j - x] in Polled(k, k in s.places, PlaceOf(s, k), incarnation, ring, now).0;
  }

  /** In one poll of all members every visible transition past the cursor is filed
      under its source. */
  lemma {:induction false} PollComplete(s: Shelf, members: seq<string>, statuses: seq<Status>, now: Time, i: nat,
                                        source: Source, j: nat)
    requires Answers(statuses, i) && statuses[i].node in members && RingOf(statuses[i], source).Some?
    requires var ring := RingOf(statuses[i], source).value;
             && ValidRing(ring) && j < |ring.events|
             && PastCursor(s, Key(statuses[i].node, source), statuses[i].incarnation, ring, ring.events[j])
    ensures s.log <= PollAll(s, members, statuses, now).log
    ensures var ring, t := RingOf(statuses[i], source).value, PollAll(s, members, statuses, now);
            MovedRecord(Key(statuses[i].node, source), statuses[i].incarnation, ring.startedAt, ring.events[j], now)
            in t.log[|s.log|..]
    decreases members
  {
    hide PollMember, ValidRing, Files, MemberFrom, Answers;
    AnswersFree(statuses, i);
    var n, st := |members| - 1, statuses[i];
    var k, ring := Key(st.node, source), RingOf(st, source).value;
    var t, status := PollAll(s, members[..n], statuses, now), StatusOf(statuses, members[n]);
    var u, r := PollMember(t, status, now), MovedRecord(k, st.incarnation, ring.startedAt, ring.events[j], now);
    PollSourced(s, members[..n], statuses, now);
    MemberSourced(t, status, now);
    LogGrows(t, u, status, now);
    if st.node in members[..n] {
      PollComplete(s, members[..n], statuses, now, i, source, j);
    } else {
      StatusFrom(statuses, members[n]);
      MemberFiles(t, status, now, source);
      FiledHas(t, u, k, st.incarnation, ring, now, j);
    }
    StillThere(s.log, t.log, u.log, r);
  }

  lemma AnswersFree(statuses: seq<Status>, i: nat)
    requires Answers(statuses, i)
    ensures i < |statuses| && statuses[i].error == ""
  {}

  lemma StillThere(a: seq<Record>, b: seq<Record>, c: seq<Record>, r: Record)
    requires a <= b <= c && (r in b[|a|..] || r in c[|b|..])
    ensures r in c[|a|..]
  {
    if r in b[|a|..] {
      var x :| 0 <= x < |b[|a|..]| && b[|a|..][x] == r;
      assert c[|a|..][x] == r;
    } else {
      var x :| 0 <= x < |c[|b|..]| && c[|b|..][x] == r;
      assert c[|a|..][|b| - |a| + x] == r;
    }
  }

  lemma LogGrows(t: Shelf, u: Shelf, status: Status, now: Time)
    requires MemberFrom(t, u, status, now)
    ensures t.log <= u.log
  {}

  // ---------------------------------------------------------------------------
  // Outages

  /** The member did not answer. */
  ghost predicate Silent(statuses: seq<Status>, node: string) {
    forall i: nat :: Answers(statuses, i) ==> statuses[i].node != node
  }

  /** Sources whose outages are recorded: the publisher always, the others while
      the member has them. */
  predicate Watched(s: Shelf, k: Key) {
    k.source == StatePublisher || PlaceOf(s, k).active
  }

  lemma MemberFails(s: Shelf, status: Status, now: Time, k: Key)
    requires status.error != "" && k.node == status.node
    ensures PlaceOf(PollMember(s, status, now), k).active == PlaceOf(s, k).active
    ensures Watched(s, k) ==> PlaceOf(PollMember(s, status, now), k).failed
  {}

  lemma {:induction false} SilentFails(s: Shelf, members: seq<string>, statuses: seq<Status>, now: Time, k: Key)
    requires Silent(statuses, k.node)
    ensures PlaceOf(PollAll(s, members, statuses, now), k).active == PlaceOf(s, k).active
    ensures Watched(s, k) && k.node in members ==> PlaceOf(PollAll(s, members, statuses, now), k).failed
  {
    hide PollMember, PlaceOf;
    if members != [] {
      var n := |members| - 1;
      var t, status := PollAll(s, members[..n], statuses, now), StatusOf(statuses, members[n]);
      SilentFails(s, members[..n], statuses, now, k);
      StatusFrom(statuses, members[n]);
      if members[n] == k.node {
        MemberFails(t, status, now, k);
      } else {
        MemberSourced(t, status, now);
      }
    }
  }

  // ---------------------------------------------------------------------------
  // Runs

  const Nothing := Collector(Shelf(map[], []), None)

  /** Some poll of the run saw the transition in the ring of this very source. */
  ghost predicate Sourced(r: Record, steps: seq<Step>) {
    exists i: nat :: i < |steps| && steps[i].Poll? && SomeRing(r, steps[i].statuses, steps[i].now)
  }

  ghost predicate AllSourced(s: Shelf, steps: seq<Step>) {
    forall i :: 0 <= i < |s.log| && s.log[i].body.Moved? ==> Sourced(s.log[i], steps)
  }

  lemma SourcedLonger(s: Shelf, steps: seq<Step>, a: Step)
    requires AllSourced(s, steps)
    ensures AllSourced(s, steps + [a])
  {
    hide SomeRing;
    forall i | 0 <= i < |s.log| && s.log[i].body.Moved? ensures Sourced(s.log[i], steps + [a]) {
      var x: nat :| x < |steps| && steps[x].Poll? && SomeRing(s.log[i], steps[x].statuses, steps[x].now);
      assert (steps + [a])[x] == steps[x];
    }
  }

  lemma PolledSourced(s: Shelf, members: seq<string>, steps: seq<Step>, a: Step)
    requires AllSourced(s, steps) && a.Poll?
    ensures AllSourced(PollAll(s, members, a.statuses, a.now), steps + [a])
  {
    SourcedLonger(s, steps, a);
    PollSourced(s, members, a.statuses, a.now);
    hide SomeRing, PollAll;
    var t := PollAll(s, members, a.statuses, a.now);
    forall i | 0 <= i < |t.log| && t.log[i].body.Moved? ensures Sourced(t.log[i], steps + [a]) {
      if i < |s.log| {
        assert t.log[i] == s.log[i];
      } else {
        assert (steps + [a])[|steps|] == a;
      }
    }
  }

  /** In every run every archived transition, in the file and in memory, was
      published by that source of that node, in the process and incarnation it is
      filed under. */
  lemma {:induction false} RecordsSourced(members: seq<string>, steps: seq<Step>)
    ensures var c := RunOf(Nothing, members, steps);
            AllSourced(c.file, steps) && (c.memory.Some? ==> AllSourced(c.memory.value, steps))
  {
    hide AllSourced;
    if steps == [] {
      NothingSourced();
    } else {
      var n := |steps| - 1;
      var before, a := steps[..n], steps[n];
      RecordsSourced(members, before);
      var c := RunOf(Nothing, members, before);
      assert before + [a] == steps;
      SourcedLonger(c.file, before, a);
      if c.memory.Some? {
        SourcedLonger(c.memory.value, before, a);
        if a.Poll? {
          PolledSourced(c.memory.value, members, before, a);
        }
      }
    }
  }

  lemma NothingSourced()
    ensures AllSourced(Shelf(map[], []), [])
  {}

  /** In every run a poll that is stored files every transition its rings show past
      their cursors. */
  lemma StoredPollComplete(members: seq<string>, steps: seq<Step>, a: Step, i: nat, source: Source, j: nat)
    requires var c := RunOf(Nothing, members, steps);
             && a.Poll? && a.written && c.memory.Some? && Answers(a.statuses, i) && a.statuses[i].node in members
             && RingOf(a.statuses[i], source).Some?
             && var ring := RingOf(a.statuses[i], source).value;
             && ValidRing(ring) && j < |ring.events|
             && PastCursor(c.memory.value, Key(a.statuses[i].node, source), a.statuses[i].incarnation, ring,
                           ring.events[j])
    ensures var st, ring := a.statuses[i], RingOf(a.statuses[i], source).value;
            MovedRecord(Key(st.node, source), st.incarnation, ring.startedAt, ring.events[j], a.now)
            in RunOf(Nothing, members, steps + [a]).file.log
  {
    var c := RunOf(Nothing, members, steps);
    PollComplete(c.memory.value, members, a.statuses, a.now, i, source, j);
    assert (steps + [a])[..|steps|] == steps;
  }

  /** In every run a stored poll that a member did not answer leaves an outage open
      for each of its watched sources. */
  lemma SilenceMarked(members: seq<string>, steps: seq<Step>, a: Step, k: Key)
    requires (forall i :: 0 <= i < |steps| ==> StepRings(steps[i])) && StepRings(a)
    requires a.Poll? && a.written && RunOf(Nothing, members, steps).memory.Some?
    requires k.node in members && Silent(a.statuses, k.node) && Watched(RunOf(Nothing, members, steps).memory.value, k)
    ensures var log := RunOf(Nothing, members, steps + [a]).file.log;
            exists m :: 0 <= m < |log| && IsMark(log[m], k, CollectionFailed)
                        && forall n :: m < n < |log| ==> !IsMark(log[n], k, CollectionResumed)
  {
    var all, c := steps + [a], RunOf(Nothing, members, steps);
    assert all[..|steps|] == steps;
    RunKeepsKeys(members, all);
    SilentFails(c.memory.value, members, a.statuses, a.now, k);
    var file := RunOf(Nothing, members, all).file;
    assert file == PollAll(c.memory.value, members, a.statuses, a.now);
    assert KeyOk(file, k);
    ScanOpened(file.log, k);
  }
}
