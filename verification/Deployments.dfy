/** Deployments and the test evidence carried from revision to revision
    (internal/app/admin_deployments.go, capability_audit.go, provider_egress.go).

    Handlers run under one lock and store with a revision check.  A test reads
    its deployment, probes without the lock and records under it, so any other
    handler may run in between. */
module Deployments {

  datatype Target = Target(provider: string, model: string, kind: string, binding: string, profile: string,
                           region: string, surface: string)

  datatype Snapshot = Snapshot(modelRevision: string, featureRevision: string, source: string, caps: set<string>)

  datatype TestStatus = Untested | Healthy | Unhealthy

  /** `caps` are the boolean capabilities; token limits are not a claim. */
  datatype Deployment = Deployment(revision: nat, target: Target, caps: set<string>, snapshot: Snapshot,
                                   enabled: bool, deleted: bool, test: TestStatus, testRevision: nat)

  /** What deploymentFromInput makes of a request. */
  datatype Proposal = Proposal(target: Target, caps: set<string>, snapshot: Snapshot, enabled: bool)

  datatype Reply = NotFound | PreconditionFailed | Conflict | Saved

  /** A recorded test: what was probed and how it went. */
  datatype Tested = Tested(id: string, probed: Deployment, status: TestStatus)

  datatype Version = Version(id: string, revision: nat)

  predicate TargetChanged(a: Target, b: Target) {
    || b.provider != a.provider || b.model != a.model || (b.kind != a.kind && a.kind != "")
    || b.binding != a.binding || b.profile != a.profile || b.region != a.region || b.surface != a.surface
  }

  predicate SnapshotRevisionChanged(a: Snapshot, b: Snapshot) {
    if a.featureRevision != "" && b.featureRevision != "" then a.featureRevision != b.featureRevision
    else a.modelRevision != b.modelRevision
  }

  predicate CapabilityChanged(a: Deployment, caps: set<string>, snapshot: Snapshot) {
    || a.caps != caps || SnapshotRevisionChanged(a.snapshot, snapshot)
    || a.snapshot.source != snapshot.source || a.snapshot.caps != snapshot.caps
  }

  /** deploymentTestIsCurrent; `egress` says the outbound path is still the one
      that was tested. */
  predicate TestCurrent(d: Deployment, egress: bool) {
    d.testRevision == d.revision && egress
  }

  // ---------------------------------------------------------------------------
  // The handlers as steps

  /** The stored records with every revision ever stored and every test ever
      recorded. */
  datatype Store = Store(records: map<string, Deployment>, past: map<Version, Deployment>, tests: seq<Tested>)

  /** `leaves` and `stays` say that no active route forbids a disabled, or the
      requested, state.  `Record` is the locked end of a test whose deployment
      was read at revision `seen`; anything may have happened since. */
  datatype Action =
    | Create(id: string, p: Proposal)
    | Update(id: string, expected: nat, p: Proposal, egress: bool, price: bool, leaves: bool, stays: bool)
    | Delete(id: string, expected: nat, leaves: bool)
    | Record(id: string, seen: nat, healthy: bool, pathUnchanged: bool)

  predicate Live(s: Store, id: string) {
    id in s.records && !s.records[id].deleted
  }

  function Filed(s: Store, id: string, d: Deployment): Store {
    Store(s.records[id := d], s.past[Version(id, d.revision) := d], s.tests)
  }

  function Created(p: Proposal): Deployment {
    Deployment(1, p.target, p.caps, p.snapshot, false, false, Untested, 0)
  }

  /** Widening disables. */
  predicate EnabledAfter(current: Deployment, p: Proposal) {
    p.enabled && p.caps <= current.caps
  }

  /** The test is carried forward over an unchanged claim that stays in service. */
  predicate Carries(current: Deployment, p: Proposal, egress: bool) {
    && current.test != Untested && TestCurrent(current, egress) && !CapabilityChanged(current, p.caps, p.snapshot)
    && !(current.enabled && !EnabledAfter(current, p))
  }

  function Updated(current: Deployment, p: Proposal, egress: bool): Deployment {
    Deployment(current.revision + 1, p.target, p.caps, p.snapshot, EnabledAfter(current, p), current.deleted,
               current.test, if Carries(current, p, egress) then current.revision + 1 else current.testRevision)
  }

  /** Every refusal of an update that found its revision. */
  predicate Acceptable(current: Deployment, p: Proposal, egress: bool, price: bool, leaves: bool, stays: bool) {
    && !TargetChanged(current.target, p.target) && (p.caps <= current.caps || leaves)
    && (EnabledAfter(current, p) && !current.enabled ==> current.test == Healthy && TestCurrent(current, egress))
    && (EnabledAfter(current, p) ==> price) && stays
  }

  function Deleted(current: Deployment): Deployment {
    current.(revision := current.revision + 1, enabled := false, deleted := true)
  }

  function StatusOf(healthy: bool): TestStatus {
    if healthy then Healthy else Unhealthy
  }

  function Recorded(current: Deployment, status: TestStatus): Deployment {
    current.(revision := current.revision + 1, test := status, testRevision := current.revision + 1)
  }

  function Next(s: Store, a: Action): Store {
    match a
    case Create(id, p) => if p.enabled || id in s.records then s else Filed(s, id, Created(p))
    case Update(id, expected, p, egress, price, leaves, stays) =>
      if Live(s, id) && s.records[id].revision == expected
         && Acceptable(s.records[id], p, egress, price, leaves, stays) then
        Filed(s, id, Updated(s.records[id], p, egress))
      else s
    case Delete(id, expected, leaves) =>
      if Live(s, id) && s.records[id].revision == expected && leaves then Filed(s, id, Deleted(s.records[id])) else s
    case Record(id, seen, healthy, pathUnchanged) =>
      if Live(s, id) && s.records[id].revision == seen && Version(id, seen) in s.past && pathUnchanged then
        var t := Tested(id, s.past[Version(id, seen)], StatusOf(healthy));
        Filed(s, id, Recorded(s.records[id], StatusOf(healthy))).(tests := s.tests + [t])
      else s
  }

  function Run(actions: seq<Action>): Store {
    if actions == [] then Store(map[], map[], []) else Next(Run(actions[..|actions| - 1]), actions[|actions| - 1])
  }

  // ---------------------------------------------------------------------------
  // The handlers as they are written

  /** Each handler run to its end under the lock. */
  class Topology {
    var records: map<string, Deployment>
    ghost var past: map<Version, Deployment>
    ghost var tests: seq<Tested>

    ghost function State(): Store
      reads this
    {
      Store(records, past, tests)
    }

    constructor ()
      ensures State() == Run([])
    {
      records, past, tests := map[], map[], [];
    }

    method Put(id: string, d: Deployment)
      modifies this`records, this`past
      ensures State() == Filed(old(State()), id, d)
    {
      records := records[id := d];
      past := past[Version(id, d.revision) := d];
    }

    /** createAdminDeployment. */
    method CreateDeployment(id: string, p: Proposal) returns (reply: Reply)
      modifies this
      ensures State() == Next(old(State()), Create(id, p))
      ensures reply == if p.enabled || id in old(records) then Conflict else Saved
    {
      if p.enabled || id in records {
        return Conflict;
      }
      Put(id, Deployment(1, p.target, p.caps, p.snapshot, false, false, Untested, 0));
      return Saved;
    }

    /** updateAdminDeployment. */
    method UpdateDeployment(id: string, expected: nat, p: Proposal, egress: bool, price: bool, leaves: bool,
                            stays: bool)
      returns (reply: Reply)
      modifies this
      ensures State() == Next(old(State()), Update(id, expected, p, egress, price, leaves, stays))
      ensures reply == NotFound <==> !Live(old(State()), id)
      ensures reply == PreconditionFailed <==> Live(old(State()), id) && old(records)[id].revision != expected
      ensures reply == Saved <==> && Live(old(State()), id) && old(records)[id].revision == expected
                                  && Acceptable(old(records)[id], p, egress, price, leaves, stays)
    {
      hide CapabilityChanged, TargetChanged;
      if id !in records || records[id].deleted {
        return NotFound;
      }
      var current := records[id];
      if current.revision != expected {
        return PreconditionFailed;
      }
      if TargetChanged(current.target, p.target) {
        return Conflict;
      }
      Gained(current.caps, p.caps);
      var enabled, testRevision := p.enabled, current.testRevision;
      if p.caps - current.caps != {} {
        if !leaves {
          return Conflict;
        }
        enabled := false;
      }
      if enabled && !current.enabled && (current.test != Healthy || !TestCurrent(current, egress)) {
        return Conflict;
      }
      if current.test != Untested && TestCurrent(current, egress) && !CapabilityChanged(current, p.caps, p.snapshot)
         && !(current.enabled && !enabled) {
        testRevision := current.revision + 1;
      }
      if (enabled && !price) || !stays {
        return Conflict;
      }
      Put(id, Deployment(current.revision + 1, p.target, p.caps, p.snapshot, enabled, current.deleted,
                         current.test, testRevision));
      return Saved;
    }

    /** deleteAdminDeployment. */
    method DeleteDeployment(id: string, expected: nat, leaves: bool) returns (reply: Reply)
      modifies this
      ensures State() == Next(old(State()), Delete(id, expected, leaves))
      ensures reply == Saved <==> Live(old(State()), id) && old(records)[id].revision == expected && leaves
    {
      if id !in records || records[id].deleted {
        return NotFound;
      }
      if records[id].revision != expected {
        return PreconditionFailed;
      }
      if !leaves {
        return Conflict;
      }
      Put(id, records[id].(revision := expected + 1, enabled := false, deleted := true));
      return Saved;
    }

    /** The part of testAdminDeployment behind the lock; `seen` was read and
        probed before. */
    method RecordTest(id: string, seen: Deployment, healthy: bool, pathUnchanged: bool) returns (reply: Reply)
      requires Version(id, seen.revision) in past && past[Version(id, seen.revision)] == seen
      modifies this
      ensures State() == Next(old(State()), Record(id, seen.revision, healthy, pathUnchanged))
      ensures reply == Saved <==> Live(old(State()), id) && old(records)[id].revision == seen.revision && pathUnchanged
      ensures reply == Saved ==> records[id].test == if healthy then Healthy else Unhealthy
    {
      if id !in records || records[id].deleted {
        return NotFound;
      }
      var current := records[id];
      if current.revision != seen.revision || !pathUnchanged {
        return Conflict;
      }
      var status := if healthy then Healthy else Unhealthy;
      tests := tests + [Tested(id, seen, status)];
      Put(id, current.(revision := current.revision + 1, test := status, testRevision := current.revision + 1));
      return Saved;
    }
  }

  lemma Gained(before: set<string>, after: set<string>)
    ensures after - before == {} <==> after <= before
  {
    if after - before == {} {
      forall c | c in after ensures c in before {
        assert c !in after - before;
      }
    }
  }

  // ---------------------------------------------------------------------------
  // What holds between any two handlers

  /** Both digests of a snapshot come from one catalog entry, and the feature
      digest covers part of what the model digest covers: `f` maps one to the
      other.  A snapshot may leave the feature digest out. */
  predicate Named(f: string -> string, s: Snapshot) {
    s.featureRevision == "" || s.featureRevision == f(s.modelRevision)
  }

  predicate NamedAction(f: string -> string, a: Action) {
    a.Create? || a.Update? ==> Named(f, a.p.snapshot)
  }

  /** The claim that was probed is the present one: capabilities, source,
      snapshot capabilities and the digest of the features. */
  predicate SameClaim(f: string -> string, a: Deployment, b: Deployment) {
    && a.caps == b.caps && a.snapshot.source == b.snapshot.source && a.snapshot.caps == b.snapshot.caps
    && f(a.snapshot.modelRevision) == f(b.snapshot.modelRevision)
  }

  /** The comparison with its fallback to model digests never hides a change of
      the feature digest. */
  lemma UnchangedFeatures(f: string -> string, a: Snapshot, b: Snapshot)
    requires Named(f, a) && Named(f, b) && !SnapshotRevisionChanged(a, b)
    ensures f(a.modelRevision) == f(b.modelRevision)
  {}

  /** Nothing of a target may change, except that a missing kind may be filled in. */
  lemma TargetFixed(a: Target, b: Target)
    ensures !TargetChanged(a, b) <==> b == a.(kind := b.kind) && (a.kind == "" || b.kind == a.kind)
  {}

  /** Snapshots of one entry never count as a change, whichever of them names its
      feature digest. */
  lemma SameModelUnchanged(f: string -> string, a: Snapshot, b: Snapshot)
    requires Named(f, a) && Named(f, b) && a.modelRevision == b.modelRevision
    ensures !SnapshotRevisionChanged(a, b)
  {}

  /** The test was run on exactly the present claim. */
  predicate Covers(f: string -> string, t: Tested, id: string, d: Deployment) {
    t.id == id && t.status == d.test && SameClaim(f, t.probed, d) && !TargetChanged(t.probed.target, d.target)
  }

  /** A healthy test of the same target reaches at least this far. */
  predicate Justifies(t: Tested, id: string, d: Deployment) {
    t.id == id && t.status == Healthy && d.caps <= t.probed.caps && !TargetChanged(t.probed.target, d.target)
  }

  predicate Current(d: Deployment) {
    d.test != Untested && d.testRevision == d.revision
  }

  ghost predicate RecordOk(f: string -> string, tests: seq<Tested>, id: string, d: Deployment) {
    && d.testRevision <= d.revision && Named(f, d.snapshot)
    && (Current(d) ==> exists i :: 0 <= i < |tests| && Covers(f, tests[i], id, d))
    && (d.enabled ==> !d.deleted && exists i :: 0 <= i < |tests| && Justifies(tests[i], id, d))
  }

  ghost predicate PastOk(s: Store) {
    && (forall v :: v in s.past ==> v.id in s.records && v.revision <= s.records[v.id].revision)
    && (forall id :: id in s.records ==>
                       var v := Version(id, s.records[id].revision); v in s.past && s.past[v] == s.records[id])
  }

  ghost predicate StoreOk(f: string -> string, s: Store) {
    PastOk(s) && forall id :: id in s.records ==> RecordOk(f, s.tests, id, s.records[id])
  }

  /** More tests take nothing away. */
  lemma MoreTests(f: string -> string, tests: seq<Tested>, more: seq<Tested>, id: string, d: Deployment)
    requires RecordOk(f, tests, id, d)
    ensures RecordOk(f, tests + more, id, d)
  {
    if Current(d) {
      var i :| 0 <= i < |tests| && Covers(f, tests[i], id, d);
      assert Covers(f, (tests + more)[i], id, d);
    }
    if d.enabled {
      var i :| 0 <= i < |tests| && Justifies(tests[i], id, d);
      assert Justifies((tests + more)[i], id, d);
    }
  }

  lemma FiledPast(s: Store, id: string, d: Deployment)
    requires PastOk(s) && d.revision == (if id in s.records then s.records[id].revision + 1 else 1)
    ensures PastOk(Filed(s, id, d))
  {
    var t := Filed(s, id, d);
    forall v | v in t.past ensures v.id in t.records && v.revision <= t.records[v.id].revision {
      assert v in s.past || v == Version(id, d.revision);
    }
    forall o | o in t.records
      ensures Version(o, t.records[o].revision) in t.past && t.past[Version(o, t.records[o].revision)] == t.records[o]
    {
      assert o != id ==> Version(o, s.records[o].revision) in s.past;
    }
  }

  lemma FiledOk(f: string -> string, s: Store, more: seq<Tested>, id: string, d: Deployment)
    requires StoreOk(f, s) && d.revision == (if id in s.records then s.records[id].revision + 1 else 1)
    requires RecordOk(f, s.tests + more, id, d)
    ensures StoreOk(f, Filed(s, id, d).(tests := s.tests + more))
  {
    hide RecordOk;
    FiledPast(s, id, d);
    forall o | o in s.records && o != id ensures RecordOk(f, s.tests + more, o, s.records[o]) {
      MoreTests(f, s.tests, more, o, s.records[o]);
    }
    assert PastOk(Filed(s, id, d).(tests := s.tests + more)) by {
      PastIgnoresTests(Filed(s, id, d), s.tests + more);
    }
    hide PastOk;
  }

  lemma PastIgnoresTests(s: Store, tests: seq<Tested>)
    requires PastOk(s)
    ensures PastOk(s.(tests := tests))
  {}

  /** An accepted update keeps what the evidence says. */
  lemma UpdatedOk(f: string -> string, tests: seq<Tested>, id: string, current: Deployment, a: Action)
    requires RecordOk(f, tests, id, current) && !current.deleted && a.Update? && NamedAction(f, a)
    requires Acceptable(current, a.p, a.egress, a.price, a.leaves, a.stays)
    ensures RecordOk(f, tests, id, Updated(current, a.p, a.egress))
  {
    var d := Updated(current, a.p, a.egress);
    if Current(d) {
      var i :| 0 <= i < |tests| && Covers(f, tests[i], id, current);
      UnchangedFeatures(f, current.snapshot, d.snapshot);
      assert Covers(f, tests[i], id, d);
    }
    if d.enabled {
      if current.enabled {
        var i :| 0 <= i < |tests| && Justifies(tests[i], id, current);
        assert Justifies(tests[i], id, d);
      } else {
        var i :| 0 <= i < |tests| && Covers(f, tests[i], id, current);
        assert Justifies(tests[i], id, d);
      }
    }
  }

  lemma RecordedOk(f: string -> string, tests: seq<Tested>, id: string, current: Deployment, status: TestStatus)
    requires RecordOk(f, tests, id, current)
    ensures RecordOk(f, tests + [Tested(id, current, status)], id, Recorded(current, status))
  {
    var d, t := Recorded(current, status), Tested(id, current, status);
    assert (tests + [t])[|tests|] == t && Covers(f, t, id, d);
    if d.enabled {
      var i :| 0 <= i < |tests| && Justifies(tests[i], id, current);
      assert Justifies((tests + [t])[i], id, d);
    }
  }

  lemma StepOk(f: string -> string, s: Store, a: Action)
    requires StoreOk(f, s) && NamedAction(f, a)
    ensures StoreOk(f, Next(s, a))
  {
    assert s.tests + [] == s.tests;
    hide RecordOk, Acceptable;
    match a {
      case Create(id, p) =>
        if !p.enabled && id !in s.records {
          CreatedOk(f, s.tests, id, p);
          FiledOk(f, s, [], id, Created(p));
        }
      case Update(id, _, p, egress, _, _, _) =>
        if Next(s, a) != s {
          UpdatedOk(f, s.tests, id, s.records[id], a);
          FiledOk(f, s, [], id, Updated(s.records[id], p, egress));
        }
      case Delete(id, _, _) =>
        if Live(s, id) {
          DeletedOk(f, s.tests, id, s.records[id]);
          FiledOk(f, s, [], id, Deleted(s.records[id]));
        }
      case Record(id, seen, healthy, _) =>
        if Next(s, a) != s {
          var current, status := s.records[id], StatusOf(healthy);
          RecordedOk(f, s.tests, id, current, status);
          FiledOk(f, s, [Tested(id, current, status)], id, Recorded(current, status));
        }
    }
  }

  lemma CreatedOk(f: string -> string, tests: seq<Tested>, id: string, p: Proposal)
    requires Named(f, p.snapshot)
    ensures RecordOk(f, tests, id, Created(p))
  {}

  lemma DeletedOk(f: string -> string, tests: seq<Tested>, id: string, d: Deployment)
    requires RecordOk(f, tests, id, d)
    ensures RecordOk(f, tests, id, Deleted(d))
  {}

  lemma {:induction false} RunOk(f: string -> string, actions: seq<Action>)
    requires forall i :: 0 <= i < |actions| ==> NamedAction(f, actions[i])
    ensures StoreOk(f, Run(actions))
  {
    if actions != [] {
      hide StoreOk, Next;
      var n := |actions| - 1;
      RunOk(f, actions[..n]);
      StepOk(f, Run(actions[..n]), actions[n]);
    } else {
      EmptyOk(f);
    }
  }

  lemma EmptyOk(f: string -> string)
    ensures StoreOk(f, Store(map[], map[], []))
  {}

  // ---------------------------------------------------------------------------
  // The evidence among the actions of the run

  /** Action `i` recorded a test of the deployment, with this answer of the probe. */
  predicate TestSaved(actions: seq<Action>, i: nat, id: string, healthy: bool) {
    && i < |actions| && actions[i].Record? && actions[i].id == id
    && actions[i].healthy == healthy && actions[i].pathUnchanged
    && Live(Run(actions[..i]), id) && Run(actions[..i]).records[id].revision == actions[i].seen
  }

  /** Test number `k` of the run was recorded by action `i`. */
  predicate RecordedBy(actions: seq<Action>, k: nat, i: nat)
    requires k < |Run(actions).tests|
  {
    var t := Run(actions).tests[k];
    && TestSaved(actions, i, t.id, t.status == Healthy) && t.status != Untested
    && |Run(actions[..i]).tests| == k && t.probed == Run(actions[..i]).records[t.id]
  }

  lemma RunSnoc(actions: seq<Action>, k: nat)
    requires k < |actions|
    ensures Run(actions[..k + 1]) == Next(Run(actions[..k]), actions[k])
  {
    assert actions[..k + 1][..k] == actions[..k];
  }

  lemma {:induction false} TestsRecorded(f: string -> string, actions: seq<Action>, k: nat)
    requires (forall i :: 0 <= i < |actions| ==> NamedAction(f, actions[i])) && k < |Run(actions).tests|
    ensures exists i: nat :: RecordedBy(actions, k, i)
  {
    var n := |actions| - 1;
    var before, s := actions[..n], Run(actions[..n]);
    if k < |s.tests| {
      TestsRecorded(f, before, k);
      var i: nat :| RecordedBy(before, k, i);
      assert before[..i] == actions[..i];
      assert Run(actions).tests[k] == s.tests[k];
      assert RecordedBy(actions, k, i);
    } else {
      RunOk(f, before);
      assert RecordedBy(actions, k, n);
    }
  }

  /** The deployment claims no more than it did when action `i` tested it. */
  predicate JustifiedBy(actions: seq<Action>, i: nat, id: string, d: Deployment) {
    && TestSaved(actions, i, id, true)
    && var p := Run(actions[..i]).records[id]; d.caps <= p.caps && !TargetChanged(p.target, d.target)
  }

  /** Action `i` tested exactly the present claim, with the status stored now. */
  predicate CoveredBy(f: string -> string, actions: seq<Action>, i: nat, id: string, d: Deployment) {
    && TestSaved(actions, i, id, d.test == Healthy)
    && var p := Run(actions[..i]).records[id]; SameClaim(f, p, d) && !TargetChanged(p.target, d.target)
  }

  /** After any run of handlers: an enabled deployment claims no more than it
      claimed when a probe of it succeeded and was recorded, and a test that
      counts as current was run on exactly the present claim and came out as
      stored. */
  lemma EvidenceOverRuns(f: string -> string, actions: seq<Action>, id: string)
    requires forall i :: 0 <= i < |actions| ==> NamedAction(f, actions[i])
    requires id in Run(actions).records
    ensures var d := Run(actions).records[id];
            && (d.enabled ==> exists i: nat :: JustifiedBy(actions, i, id, d))
            && (Current(d) ==> exists i: nat :: CoveredBy(f, actions, i, id, d))
  {
    RunOk(f, actions);
    var s := Run(actions);
    var d := s.records[id];
    hide Run;
    assert RecordOk(f, s.tests, id, d);
    if d.enabled {
      var k :| 0 <= k < |s.tests| && Justifies(s.tests[k], id, d);
      TestsRecorded(f, actions, k);
      var i: nat :| RecordedBy(actions, k, i);
      assert JustifiedBy(actions, i, id, d);
    }
    if Current(d) {
      var k :| 0 <= k < |s.tests| && Covers(f, s.tests[k], id, d);
      TestsRecorded(f, actions, k);
      var i: nat :| RecordedBy(actions, k, i);
      assert CoveredBy(f, actions, i, id, d);
    }
  }

  // ---------------------------------------------------------------------------
  // Out of service and back

  /** Some test of the deployment from number `n` on had this outcome. */
  ghost predicate NewTest(tests: seq<Tested>, n: nat, id: string, status: TestStatus) {
    exists i :: n <= i < |tests| && tests[i].id == id && tests[i].status == status
  }

  /** What counts for the deployment now was tested from number `n` on. */
  ghost predicate Renewed(s: Store, n: nat, id: string) {
    && n <= |s.tests| && id in s.records && s.records[id].testRevision <= s.records[id].revision
    && (s.records[id].enabled ==> NewTest(s.tests, n, id, Healthy))
    && (Current(s.records[id]) ==> NewTest(s.tests, n, id, s.records[id].test))
  }

  lemma RenewedStep(s: Store, a: Action, n: nat, id: string)
    requires Renewed(s, n, id)
    ensures Renewed(Next(s, a), n, id)
  {
    var t := Next(s, a);
    assert s.tests <= t.tests;
    forall status | NewTest(s.tests, n, id, status) ensures NewTest(t.tests, n, id, status) {
      var i :| n <= i < |s.tests| && s.tests[i].id == id && s.tests[i].status == status;
      assert t.tests[i] == s.tests[i];
    }
    if a.Record? && a.id == id && t != s {
      assert t.tests[|s.tests|].id == id && t.tests[|s.tests|].status == StatusOf(a.healthy);
    }
  }

  lemma {:induction false} RenewedRun(actions: seq<Action>, i: nat, k: nat, n: nat, id: string)
    requires i <= k <= |actions| && Renewed(Run(actions[..i]), n, id)
    ensures Renewed(Run(actions[..k]), n, id)
    decreases k
  {
    if i < k {
      RunSnoc(actions, k - 1);
      hide Renewed, Next, Run;
      RenewedRun(actions, i, k - 1, n, id);
      RenewedStep(Run(actions[..k - 1]), actions[k - 1], n, id);
    }
  }

  /** Leaving service needs no test, so one that counts later is newer. */
  lemma DisabledRenewed(f: string -> string, s: Store, a: Action, id: string)
    requires StoreOk(f, s) && id in s.records && s.records[id].enabled && !Next(s, a).records[id].enabled
    ensures Next(s, a).tests == s.tests && Renewed(Next(s, a), |s.tests|, id)
  {
    assert RecordOk(f, s.tests, id, s.records[id]);
  }

  lemma NextGrows(s: Store, a: Action)
    ensures |s.tests| <= |Next(s, a).tests|
  {}

  lemma {:induction false} TestsGrow(actions: seq<Action>, i: nat)
    requires i <= |actions|
    ensures |Run(actions[..i]).tests| <= |Run(actions).tests|
  {
    hide Next;
    var n := |actions| - 1;
    if i <= n {
      TestsGrow(actions[..n], i);
      assert actions[..n][..i] == actions[..i];
      NextGrows(Run(actions[..n]), actions[n]);
    } else {
      assert actions[..i] == actions;
    }
  }

  /** In any run, a deployment that left service at action `i`, by an edit or
      because an edit widened it, is enabled again only after a later action
      recorded a probe of it that succeeded. */
  lemma ReturnNeedsTest(f: string -> string, actions: seq<Action>, i: nat, k: nat, id: string)
    requires forall j :: 0 <= j < |actions| ==> NamedAction(f, actions[j])
    requires i < k <= |actions| && id in Run(actions[..i]).records && id in Run(actions[..i + 1]).records
    requires Run(actions[..i]).records[id].enabled && !Run(actions[..i + 1]).records[id].enabled
    ensures id in Run(actions[..k]).records
    ensures Run(actions[..k]).records[id].enabled ==> exists j :: i < j < k && TestSaved(actions, j, id, true)
  {
    var n := |Run(actions[..i]).tests|;
    RunOk(f, actions[..i]);
    RunSnoc(actions, i);
    hide Next, Run, StoreOk, TestSaved;
    DisabledRenewed(f, Run(actions[..i]), actions[i], id);
    RenewedRun(actions, i + 1, k, n, id);
    if Run(actions[..k]).records[id].enabled {
      var t :| n <= t < |Run(actions[..k]).tests|
               && Run(actions[..k]).tests[t].id == id && Run(actions[..k]).tests[t].status == Healthy;
      TestsRecorded(f, actions[..k], t);
      var j: nat :| RecordedBy(actions[..k], t, j);
      LaterThan(f, actions, i, k, j, id);
    }
  }

  lemma LaterThan(f: string -> string, actions: seq<Action>, i: nat, k: nat, j: nat, id: string)
    requires forall x :: 0 <= x < |actions| ==> NamedAction(f, actions[x])
    requires i < k <= |actions| && TestSaved(actions[..k], j, id, true)
    requires |Run(actions[..i + 1]).tests| <= |Run(actions[..k][..j]).tests|
    ensures i < j < k && TestSaved(actions, j, id, true)
  {
    assert actions[..k][..j] == actions[..j];
    assert TestSaved(actions, j, id, true);
    hide Run, TestSaved;
    if j <= i {
      TestBefore(f, actions, i, j, id);
    }
  }

  lemma TestBefore(f: string -> string, actions: seq<Action>, i: nat, j: nat, id: string)
    requires forall x :: 0 <= x < |actions| ==> NamedAction(f, actions[x])
    requires j <= i < |actions| && TestSaved(actions, j, id, true)
    ensures |Run(actions[..j]).tests| < |Run(actions[..i + 1]).tests|
  {
    hide Run, TestSaved;
    TestStored(f, actions, j, id, true);
    TestsGrow(actions[..i + 1], j + 1);
    assert actions[..i + 1][..j + 1] == actions[..j + 1];
  }

  /** What a saved test leaves: healthy exactly if the probe succeeded, and current. */
  lemma TestStored(f: string -> string, actions: seq<Action>, i: nat, id: string, healthy: bool)
    requires (forall x :: 0 <= x < |actions| ==> NamedAction(f, actions[x])) && TestSaved(actions, i, id, healthy)
    ensures var before, after := Run(actions[..i]), Run(actions[..i + 1]);
            && |after.tests| == |before.tests| + 1 && id in after.records && Current(after.records[id])
            && (after.records[id].test == Healthy <==> healthy)
            && after.records[id].enabled == before.records[id].enabled
  {
    RunOk(f, actions[..i]);
    RunSnoc(actions, i);
    hide Run;
    var s := Run(actions[..i]);
    assert Version(id, s.records[id].revision) in s.past;
  }

  // ---------------------------------------------------------------------------
  // What the handlers achieve

  /** Any new deployment can be tested and taken into service. */
  lemma IntoService(s: Store, id: string, p: Proposal, leaves: bool)
    requires id !in s.records && !p.enabled
    ensures var s1 := Next(s, Create(id, p));
            var s2 := Next(s1, Record(id, 1, true, true));
            var s3 := Next(s2, Update(id, 2, p.(enabled := true), true, true, leaves, true));
            && Live(s3, id) && s3.records[id].enabled && Current(s3.records[id]) && s3.records[id].test == Healthy
            && s3.records[id].caps == p.caps && s3.records[id].target == p.target
  {}

  /** An update that is saved. */
  predicate UpdateSaved(s: Store, a: Action) {
    && a.Update? && Live(s, a.id) && s.records[a.id].revision == a.expected
    && Acceptable(s.records[a.id], a.p, a.egress, a.price, a.leaves, a.stays)
  }

  /** A saved update puts into service exactly what asks for it without gaining a
      capability. */
  lemma ServiceExactly(s: Store, a: Action)
    requires UpdateSaved(s, a)
    ensures Next(s, a).records[a.id].enabled <==>
            a.p.enabled && forall c :: c in a.p.caps ==> c in s.records[a.id].caps
  {}

  /** A current test stays current over a saved update if and only if its outbound
      path is still the tested one, the claim is the same and the deployment does
      not leave service. */
  lemma TestCarriedExactly(s: Store, a: Action)
    requires UpdateSaved(s, a) && s.records[a.id].test != Untested
    requires s.records[a.id].testRevision <= s.records[a.id].revision
    ensures var d, p := s.records[a.id], a.p;
            Current(Next(s, a).records[a.id]) <==>
            && Current(d) && a.egress && p.caps == d.caps
            && p.snapshot.source == d.snapshot.source && p.snapshot.caps == d.snapshot.caps
            && !SnapshotRevisionChanged(d.snapshot, p.snapshot) && (d.enabled ==> p.enabled)
  {}

  lemma DeletedStays(s: Store, a: Action, id: string)
    requires id in s.records && s.records[id].deleted
    ensures id in Next(s, a).records && Next(s, a).records[id] == s.records[id]
  {}

  lemma {:induction false} DeletedLater(actions: seq<Action>, i: nat, id: string)
    requires i <= |actions| && id in Run(actions[..i]).records && Run(actions[..i]).records[id].deleted
    ensures id in Run(actions).records && Run(actions).records[id] == Run(actions[..i]).records[id]
  {
    hide Next;
    var n := |actions| - 1;
    if i <= n {
      assert actions[..n][..i] == actions[..i];
      DeletedLater(actions[..n], i, id);
      DeletedStays(Run(actions[..n]), actions[n], id);
    } else {
      assert actions[..i] == actions;
    }
  }

  lemma DeleteSaved(s: Store, a: Action)
    requires a.Delete? && a.leaves && Live(s, a.id) && s.records[a.id].revision == a.expected
    ensures var t := Next(s, a);
            && a.id in t.records && t.records[a.id].deleted && !t.records[a.id].enabled
            && t.records[a.id].revision == a.expected + 1
  {}

  /** A saved delete takes the deployment out of service for good: no later action
      of the run changes it. */
  lemma DeletedForGood(actions: seq<Action>, i: nat)
    requires i < |actions| && actions[i].Delete? && actions[i].leaves && Live(Run(actions[..i]), actions[i].id)
    requires Run(actions[..i]).records[actions[i].id].revision == actions[i].expected
    ensures actions[i].id in Run(actions).records
    ensures var d := Run(actions).records[actions[i].id];
            d.deleted && !d.enabled && d.revision == actions[i].expected + 1
  {
    RunSnoc(actions, i);
    hide Run, Next;
    DeleteSaved(Run(actions[..i]), actions[i]);
    DeletedLater(actions, i + 1, actions[i].id);
  }
}
