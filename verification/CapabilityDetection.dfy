/** The capability-detection runner: budgeted upstream probes over a
    compare-and-set record that a cancel request may change at any time
    (internal/app/admin_model_capability_detections.go).

    The state changes only inside Interfere, Put and Send, and each adds what it
    leaves to the trace.  Safe speaks about the whole trace, so it holds wherever
    a crash may cut the run short; a restart never resumes a detection
    (internal/store/bolt/model_capability_detection.go). */
module CapabilityDetection {
  import opened Basics

  datatype ProbeOutcome = Supported | Unauthorized | Unavailable | Unsupported | AssertionFailed | Inconclusive
                        | NotProbed | Canceled

  datatype CallStatus = Reserved | Running | Completed | Unknown

  datatype Call = Call(binding: string, capability: string, status: CallStatus)

  datatype Phase = InProgress | Interrupted | Failed | Ambiguous | CanceledPhase | Finished

  datatype Candidate = Candidate(binding: string, status: ProbeOutcome)

  datatype Probe = Probe(capability: string, dependsOn: seq<string>)

  datatype Plan = Plan(probes: seq<Probe>, deferred: seq<string>)

  /** `completed` is false while a result only holds a place. */
  datatype ProbeResult = ProbeResult(outcome: ProbeOutcome, completed: bool)

  datatype Detection = Detection(revision: nat, phase: Phase, cancelRequested: bool, candidates: seq<Candidate>,
                                 binding: string,
                                 maxCalls: nat, providerCalls: nat, calls: seq<Call>, results: map<string, ProbeResult>)

  /** A request that left the process, with what came back. */
  datatype Ask = Ask(binding: string, probe: Probe, outcome: ProbeOutcome)

  datatype Pair = Pair(binding: string, capability: string)

  function PairsOf(calls: seq<Call>): seq<Pair> {
    seq(|calls|, i requires 0 <= i < |calls| => Pair(calls[i].binding, calls[i].capability))
  }

  function AskedPairs(asked: seq<Ask>): seq<Pair> {
    seq(|asked|, i requires 0 <= i < |asked| => Pair(asked[i].binding, asked[i].probe.capability))
  }

  ghost predicate Distinct<T>(s: seq<T>) {
    forall i, k :: 0 <= i < k < |s| ==> s[i] != s[k]
  }

  /** This capability was asked on this binding and is supported there. */
  ghost predicate Confirmed(asked: seq<Ask>, binding: string, capability: string) {
    exists k :: 0 <= k < |asked| && asked[k].binding == binding && asked[k].probe.capability == capability
                && asked[k].outcome == Supported
  }

  /** What request `i` depends on was confirmed on its binding before it. */
  ghost predicate DependenciesFirst(asked: seq<Ask>, i: nat)
    requires i < |asked|
  {
    forall c :: c in asked[i].probe.dependsOn ==> Confirmed(asked[..i], asked[i].binding, c)
  }

  /** The record may have been touched by cancel requests, and by nothing else. */
  ghost predicate Touched(a: Detection, b: Detection) {
    b == a || (b == a.(revision := b.revision, cancelRequested := true) && a.revision < b.revision)
  }

  predicate DependenciesSupported(results: map<string, ProbeResult>, dependsOn: seq<string>) {
    forall i :: 0 <= i < |dependsOn| ==> dependsOn[i] in results && results[dependsOn[i]].outcome == Supported
  }

  /** probeOutcomeRank. */
  function Rank(o: ProbeOutcome): nat {
    match o
    case Supported => 6
    case Unauthorized => 5
    case Unavailable => 4
    case Unsupported => 3
    case AssertionFailed => 2
    case Inconclusive => 1
    case NotProbed => 0
    case Canceled => 0
  }

  /** Support settles a binding; what an operator can act on outranks an answer
      without support, and that outranks not knowing. */
  lemma RankOrder(o: ProbeOutcome)
    ensures o != Supported ==> Rank(o) < Rank(Supported)
    ensures Rank(Unauthorized) > Rank(Unavailable) > Rank(Unsupported) > Rank(AssertionFailed) > Rank(Inconclusive)
    ensures Rank(Inconclusive) > Rank(NotProbed) == Rank(Canceled)
  {}

  predicate Budgeted(d: Detection) {
    |d.calls| == d.providerCalls <= d.maxCalls
  }

  function Reserve(d: Detection, binding: string, capability: string): Detection {
    d.(providerCalls := d.providerCalls + 1, calls := d.calls + [Call(binding, capability, Reserved)])
  }

  /** The last call in a new state. */
  function LastCall(d: Detection, status: CallStatus): Detection {
    if d.calls == [] then d
    else d.(calls := d.calls[|d.calls| - 1 := d.calls[|d.calls| - 1].(status := status)])
  }

  function CloseOpen(results: map<string, ProbeResult>): map<string, ProbeResult> {
    map c | c in results :: if results[c].completed then results[c] else ProbeResult(Canceled, true)
  }

  /** Some request on this binding was answered with support. */
  ghost predicate Answered(asked: seq<Ask>, binding: string) {
    exists k :: 0 <= k < |asked| && asked[k].binding == binding && asked[k].outcome == Supported
  }

  /** Each capability is planned once. */
  ghost predicate PlanOk(plan: Plan) {
    forall i, k :: 0 <= i < k < |plan.probes| ==> plan.probes[i].capability != plan.probes[k].capability
  }

  lemma ReservePairs(d: Detection, binding: string, capability: string)
    requires Distinct(PairsOf(d.calls)) && Pair(binding, capability) !in PairsOf(d.calls)
    ensures PairsOf(Reserve(d, binding, capability).calls) == PairsOf(d.calls) + [Pair(binding, capability)]
    ensures Distinct(PairsOf(Reserve(d, binding, capability).calls))
  {}

  lemma LastCallPairs(d: Detection, status: CallStatus)
    ensures PairsOf(LastCall(d, status).calls) == PairsOf(d.calls) && |LastCall(d, status).calls| == |d.calls|
  {}

  lemma SameLength(a: seq<Call>, b: seq<Call>)
    requires PairsOf(a) == PairsOf(b)
    ensures |a| == |b|
  {}

  /** What is known of a capability without an answer. */
  predicate Placeholder(r: ProbeResult) {
    !r.completed && (r.outcome == NotProbed || r.outcome == Inconclusive)
  }

  /** Request `a` has its answer among the results. */
  predicate Shown(results: map<string, ProbeResult>, a: Ask) {
    a.probe.capability in results && results[a.probe.capability] == ProbeResult(a.outcome, true)
  }

  /** The request for `c` on the binding was answered like this. */
  ghost predicate AnsweredWith(asked: seq<Ask>, binding: string, c: string, outcome: ProbeOutcome) {
    exists k :: 0 <= k < |asked| && asked[k].binding == binding && asked[k].probe.capability == c
                && asked[k].outcome == outcome
  }

  /** Results are answers or placeholders, and every answer is there. */
  ghost predicate Exact(binding: string, results: map<string, ProbeResult>, asked: seq<Ask>) {
    && (forall c :: c in results ==>
                      Placeholder(results[c]) || (results[c].completed
                                                  && AnsweredWith(asked, binding, c, results[c].outcome)))
    && (forall k :: 0 <= k < |asked| && asked[k].binding == binding ==> Shown(results, asked[k]))
  }

  /** The same, except that the last answer may not be there yet and that a cancel
      closes what was open. */
  ghost predicate Recorded(binding: string, phase: Phase, results: map<string, ProbeResult>, asked: seq<Ask>) {
    if binding == "" then results == map[]
    else
      && (forall c :: c in results ==>
                        || Placeholder(results[c])
                        || (phase == CanceledPhase && results[c] == ProbeResult(Canceled, true))
                        || (results[c].completed && AnsweredWith(asked, binding, c, results[c].outcome)))
      && (forall k :: 0 <= k < |asked| && asked[k].binding == binding ==>
                        || Shown(results, asked[k])
                        || (k == |asked| - 1 && Open(phase, results, asked[k].probe.capability)))
  }

  predicate Open(phase: Phase, results: map<string, ProbeResult>, c: string) {
    c in results && (Placeholder(results[c]) || (phase == CanceledPhase && results[c] == ProbeResult(Canceled, true)))
  }

  lemma ExactRecorded(binding: string, phase: Phase, results: map<string, ProbeResult>, asked: seq<Ask>)
    requires Exact(binding, results, asked) && binding != ""
    ensures Recorded(binding, phase, results, asked)
  {}

  /** Closing what is open keeps every answer. */
  lemma ClosedRecorded(binding: string, phase: Phase, results: map<string, ProbeResult>, asked: seq<Ask>)
    requires Recorded(binding, phase, results, asked) && phase != CanceledPhase
    ensures Recorded(binding, CanceledPhase, CloseOpen(results), asked)
  {}

  datatype Moment = Moment(stored: Detection, asked: seq<Ask>)

  /** Calls are recorded before they are sent, in order and once each. */
  ghost predicate SafeState(stored: Detection, asked: seq<Ask>) {
    && Budgeted(stored) && Distinct(PairsOf(stored.calls))
    && AskedPairs(asked) <= PairsOf(stored.calls) && |stored.calls| <= |asked| + 1
    && (forall i :: 0 <= i < |asked| ==> DependenciesFirst(asked, i))
    && Recorded(stored.binding, stored.phase, stored.results, asked)
  }

  /** Past identification every completed result is what came back for it, unless
      a cancel closed it, and every answer but the last is recorded. */
  lemma AnswersRecorded(stored: Detection, asked: seq<Ask>, c: string)
    requires SafeState(stored, asked) && stored.binding != ""
    ensures c in stored.results && stored.results[c].completed && stored.phase != CanceledPhase ==>
              AnsweredWith(asked, stored.binding, c, stored.results[c].outcome)
    ensures forall k :: 0 <= k < |asked| - 1 && asked[k].binding == stored.binding ==> Shown(stored.results, asked[k])
  {}

  /** The detection budget: no more requests than records, no more records than
      the budget, no question asked twice, dependencies confirmed first. */
  lemma BudgetKept(stored: Detection, asked: seq<Ask>)
    requires SafeState(stored, asked)
    ensures |asked| <= |stored.calls| <= stored.maxCalls
    ensures forall i :: 0 <= i < |asked| ==>
                          stored.calls[i].binding == asked[i].binding
                          && stored.calls[i].capability == asked[i].probe.capability
    ensures forall i, k :: 0 <= i < k < |asked| ==>
                             asked[i].binding != asked[k].binding
                             || asked[i].probe.capability != asked[k].probe.capability
    ensures forall i, c :: 0 <= i < |asked| && c in asked[i].probe.dependsOn ==>
                             exists k :: 0 <= k < i && asked[k].binding == asked[i].binding
                                         && asked[k].probe.capability == c && asked[k].outcome == Supported
  {
    var pairs, sent := PairsOf(stored.calls), AskedPairs(asked);
    assert |sent| == |asked| && |pairs| == |stored.calls|;
    forall i | 0 <= i < |asked|
      ensures stored.calls[i].binding == asked[i].binding && stored.calls[i].capability == asked[i].probe.capability
    {
      assert sent[i] == pairs[i];
    }
    forall i, k | 0 <= i < k < |asked|
      ensures asked[i].binding != asked[k].binding || asked[i].probe.capability != asked[k].probe.capability
    {
      assert sent[i] == pairs[i] && sent[k] == pairs[k];
    }
    forall i, c | 0 <= i < |asked| && c in asked[i].probe.dependsOn
      ensures exists k :: 0 <= k < i && asked[k].binding == asked[i].binding && asked[k].probe.capability == c
                          && asked[k].outcome == Supported
    {
      assert DependenciesFirst(asked, i);
      var k :| 0 <= k < |asked[..i]| && asked[..i][k].binding == asked[i].binding && asked[..i][k].probe.capability == c
               && asked[..i][k].outcome == Supported;
      assert asked[k] == asked[..i][k];
    }
  }

  class Runner {
    var stored: Detection
    var asked: seq<Ask>
    /** every state so far: where a crash may have cut the run short */
    ghost var trace: seq<Moment>
    /** a cancel request, a store failure, a timeout or a vanished binding has
        come in between */
    ghost var disturbed: bool
    /** the plan of each binding's detector, None where there is none */
    const plans: string -> Option<Plan>
    /** every capability a finished record speaks of */
    const capabilities: seq<string>

    ghost predicate Safe()
      reads `stored, `asked, `trace
    {
      SafeState(stored, asked) && forall k :: 0 <= k < |trace| ==> SafeState(trace[k].stored, trace[k].asked)
    }

    /** Every reserved call has been asked. */
    ghost predicate Settled()
      reads `stored, `asked
    {
      |asked| == |stored.calls|
    }

    ghost predicate SameCalls(d: Detection)
      reads `stored
    {
      PairsOf(d.calls) == PairsOf(stored.calls) && d.providerCalls == stored.providerCalls
      && d.maxCalls == stored.maxCalls
    }

    /** A local copy that differs from the stored record in call states,
        candidates and revision at most. */
    ghost predicate Mirrors(d: Detection)
      reads `stored
    {
      && SameCalls(d) && d.results == stored.results && d.binding == stored.binding && d.candidates == stored.candidates
      && d.phase == stored.phase
    }

    /** A local copy that a put will not refuse, unless disturbed. */
    ghost predicate Latest(d: Detection)
      reads this
    {
      disturbed || (d.revision == stored.revision && !d.cancelRequested && !stored.cancelRequested)
    }

    /** Cancel requests that arrive now. */
    method Interfere()
      requires Safe()
      modifies this`stored, this`trace, this`disturbed
      ensures old(trace) <= trace && (old(disturbed) ==> disturbed)
      ensures Safe() && Touched(old(stored), stored) && (!disturbed ==> stored == old(stored))
    {
      if * {
        var n: nat :| n > 0;
        stored := stored.(revision := stored.revision + n, cancelRequested := true);
        trace := trace + [Moment(stored, asked)];
        disturbed := true;
      }
    }

    method Get() returns (r: Option<Detection>)
      requires Safe()
      modifies this`stored, this`trace, this`disturbed
      ensures old(trace) <= trace && (old(disturbed) ==> disturbed)
      ensures Safe() && Touched(old(stored), stored) && (r.Some? ==> r.value == stored)
      ensures !disturbed ==> r.Some? && stored == old(stored)
    {
      Interfere();
      if * {
        disturbed := true;
        return None;
      }
      r := Some(stored);
    }

    /** The context's deadline. */
    method Deadline() returns (expired: bool)
      modifies this`disturbed
      ensures old(disturbed) || expired ==> disturbed
      ensures !expired ==> disturbed == old(disturbed)
    {
      expired := *;
      if expired {
        disturbed := true;
      }
    }

    /** A record that may be stored: the same calls, or one more that is new; no
        answer lost or invented. */
    ghost predicate Storable(d: Detection)
      reads `stored, `asked
    {
      && Budgeted(d) && d.maxCalls == stored.maxCalls
      && (|| PairsOf(d.calls) == PairsOf(stored.calls)
          || (&& Settled() && |d.calls| == |stored.calls| + 1 && Distinct(PairsOf(d.calls))
              && PairsOf(stored.calls) <= PairsOf(d.calls)))
      && Recorded(d.binding, d.phase, d.results, asked)
    }

    lemma KeepsCalls(d: Detection)
      requires Safe() && SameCalls(d) && Recorded(d.binding, d.phase, d.results, asked)
      ensures Storable(d)
    {}

    /** PutModelCapabilityDetection: refused when the revision moved on. */
    method Put(d: Detection) returns (r: Option<Detection>)
      requires Safe() && Storable(d)
      modifies this`stored, this`trace, this`disturbed
      ensures old(trace) <= trace && (old(disturbed) ==> disturbed)
      ensures Safe()
      ensures r.None? ==> Touched(old(stored), stored)
      ensures r.Some? ==> r.value == stored && stored == d.(revision := d.revision + 1)
      ensures !disturbed && d.revision == old(stored.revision) ==> r.Some?
    {
      Interfere();
      if stored.revision != d.revision {
        return None;
      }
      if * {
        disturbed := true;
        return None;
      }
      stored := d.(revision := d.revision + 1);
      trace := trace + [Moment(stored, asked)];
      r := Some(stored);
    }

    /** The upstream request itself. */
    method Send(binding: string, probe: Probe) returns (outcome: ProbeOutcome)
      requires Safe() && |stored.calls| == |asked| + 1
      requires PairsOf(stored.calls)[|asked|] == Pair(binding, probe.capability)
               && stored.calls[|asked|].status == Running
      requires forall c :: c in probe.dependsOn ==> Confirmed(asked, binding, c)
      requires Awaits(stored.binding, stored.results, binding, probe)
      modifies this`asked, this`trace
      ensures old(trace) <= trace
      ensures Safe() && Settled() && asked == old(asked) + [Ask(binding, probe, outcome)]
    {
      outcome := *;
      ghost var before := asked;
      asked := asked + [Ask(binding, probe, outcome)];
      trace := trace + [Moment(stored, asked)];
      assert forall i :: 0 <= i < |before| ==> asked[..i] == before[..i] && asked[i] == before[i];
      assert asked[..|before|] == before;
      assert forall i :: 0 <= i < |before| ==> DependenciesFirst(before, i) ==> DependenciesFirst(asked, i);
      AwaitedRecorded(stored.binding, stored.phase, stored.results, before, Ask(binding, probe, outcome));
    }

    /** All answers so far are recorded and the next one has its place. */
    ghost predicate Awaits(resolved: string, results: map<string, ProbeResult>, binding: string, probe: Probe)
      reads `asked
    {
      if resolved == "" then results == map[]
      else
        && Exact(resolved, results, asked)
        && (binding == resolved ==> probe.capability in results && Placeholder(results[probe.capability]))
    }

    /** Any terminal write: the calls stay as they are. */
    method Finish(d: Detection, phase: Phase, results: map<string, ProbeResult>)
      requires Safe() && SameCalls(d) && Recorded(d.binding, phase, results, asked)
      modifies this`stored, this`trace, this`disturbed
      ensures old(trace) <= trace && (old(disturbed) ==> disturbed)
      ensures Safe()
      ensures !disturbed && d.revision == old(stored.revision) ==>
                stored == d.(phase := phase, results := results, revision := d.revision + 1)
    {
      KeepsCalls(d.(phase := phase, results := results));
      var _ := Put(d.(phase := phase, results := results));
    }

    /** finalizeCanceledDetection. */
    method FinishCanceled(d: Detection)
      requires Safe() && Mirrors(d) && stored.phase != CanceledPhase
      modifies this`stored, this`trace, this`disturbed
      ensures old(trace) <= trace && (old(disturbed) ==> disturbed)
      ensures Safe()
    {
      ClosedRecorded(d.binding, d.phase, d.results, asked);
      Finish(d, CanceledPhase, CloseOpen(d.results));
    }

    /** finishDetectionWithoutProbe and finishAmbiguousDetection: re-read first. */
    method FinishFresh(d: Detection, phase: Phase)
      requires Safe() && Mirrors(d) && (stored.binding != "" ==> Exact(stored.binding, stored.results, asked))
      modifies this`stored, this`trace, this`disturbed
      ensures old(trace) <= trace && (old(disturbed) ==> disturbed)
      ensures Safe()
      ensures !disturbed ==> stored == old(stored).(phase := phase, revision := stored.revision)
    {
      var current := Get();
      var latest := if current.Some? then current.value else d;
      if latest.binding != "" {
        ExactRecorded(latest.binding, phase, latest.results, asked);
      }
      Finish(latest, phase, latest.results);
    }

    /** Reserve a call and mark it as running, both before it is made. */
    method Claim(d: Detection, binding: string, probe: Probe) returns (ok: bool)
      requires Safe() && Settled() && SameCalls(d) && d.providerCalls < d.maxCalls
      requires Pair(binding, probe.capability) !in PairsOf(stored.calls)
      requires Awaits(d.binding, d.results, binding, probe)
      modifies this`stored, this`trace, this`disturbed
      ensures old(trace) <= trace && (old(disturbed) ==> disturbed)
      ensures Safe()
      ensures ok ==>
                && stored.results == d.results && stored.binding == d.binding && stored.candidates == d.candidates
                && stored.maxCalls == d.maxCalls && stored.phase == d.phase
                && stored.providerCalls == d.providerCalls + 1 && stored.cancelRequested == d.cancelRequested
                && PairsOf(stored.calls) == old(PairsOf(stored.calls)) + [Pair(binding, probe.capability)]
                && |stored.calls| == |asked| + 1 && stored.calls[|asked|].status == Running
      ensures old(Latest(d)) && !disturbed ==> ok
    {
      hide DependenciesFirst;
      SameLength(d.calls, stored.calls);
      ReservePairs(d, binding, probe.capability);
      AwaitsRecorded(d, binding, probe);
      hide Recorded, Exact;
      var reserved := Put(Reserve(d, binding, probe.capability));
      if reserved.None? {
        return false;
      }
      LastCallPairs(reserved.value, Running);
      var running := Put(LastCall(reserved.value, Running));
      ok := running.Some?;
    }

    lemma AwaitsRecorded(d: Detection, binding: string, probe: Probe)
      requires Awaits(d.binding, d.results, binding, probe)
      ensures Recorded(d.binding, d.phase, d.results, asked)
    {}

    /** Reserve, mark as running, send, and read the record again. */
    method Spend(d: Detection, binding: string, probe: Probe) returns (r: Option<Detection>, outcome: ProbeOutcome)
      requires Safe() && Settled() && SameCalls(d) && d.providerCalls < d.maxCalls
      requires Pair(binding, probe.capability) !in PairsOf(stored.calls)
      requires forall c :: c in probe.dependsOn ==> Confirmed(asked, binding, c)
      requires Awaits(d.binding, d.results, binding, probe)
      modifies this
      ensures old(trace) <= trace && (old(disturbed) ==> disturbed)
      ensures Safe()
      ensures r.Some? ==>
                && Settled() && Mirrors(r.value) && asked == old(asked) + [Ask(binding, probe, outcome)]
                && PairsOf(stored.calls) == old(PairsOf(stored.calls)) + [Pair(binding, probe.capability)]
                && stored.results == d.results && stored.binding == d.binding && stored.candidates == d.candidates
                && stored.maxCalls == d.maxCalls && stored.phase == d.phase
                && stored.providerCalls == d.providerCalls + 1
      ensures old(Latest(d)) && !disturbed ==> r.Some? && Latest(r.value)
    {
      hide Safe, Confirmed, Exact;
      r, outcome := None, NotProbed;
      var claimed := Claim(d, binding, probe);
      if !claimed {
        return;
      }
      outcome := Send(binding, probe);
      var current := Get();
      if current.None? {
        return;
      }
      var expired := Deadline();
      LastCallPairs(current.value, if expired then Unknown else Completed);
      r := Some(LastCall(current.value, if expired then Unknown else Completed));
    }

    /** spendDetectionProbe for a probe that depends on nothing. */
    method SpendRoot(d: Detection, binding: string, probe: Probe) returns (r: Detection, outcome: Option<ProbeOutcome>)
      requires Safe() && Settled() && Mirrors(d) && d.providerCalls < d.maxCalls && probe.dependsOn == []
      requires Pair(binding, probe.capability) !in PairsOf(stored.calls)
      requires stored.binding == "" && stored.phase != CanceledPhase
      modifies this
      ensures old(trace) <= trace && (old(disturbed) ==> disturbed)
      ensures Safe()
      ensures outcome.Some? ==>
                && Settled() && Mirrors(r) && asked == old(asked) + [Ask(binding, probe, outcome.value)]
                && PairsOf(stored.calls) == old(PairsOf(stored.calls)) + [Pair(binding, probe.capability)]
                && stored.results == d.results && stored.binding == d.binding && stored.candidates == d.candidates
                && stored.phase == d.phase && stored.maxCalls == d.maxCalls
                && stored.providerCalls == d.providerCalls + 1
      ensures old(Latest(d)) && !disturbed ==> outcome.Some? && Latest(r)
    {
      assert d.results == map[];
      hide Safe;
      r, outcome := d, None;
      var expired := Deadline();
      if d.cancelRequested || expired {
        FinishCanceled(d);
        return;
      }
      var called, answer := Spend(d, binding, probe);
      if called.None? {
        return;
      }
      r := called.value;
      if r.cancelRequested {
        FinishCanceled(r);
        return;
      }
      outcome := Some(answer);
    }

    /** The inner loop of identifyCapabilityBinding: the roots of one plan until
        one is supported. */
    method AskRoots(d: Detection, binding: string, plan: Plan, only: bool, before: ProbeOutcome)
      returns (r: Detection, ok: bool, results: map<string, ProbeResult>, status: ProbeOutcome)
      requires Safe() && Settled() && Mirrors(d) && PlanOk(plan) && before != Supported
      requires forall c :: Pair(binding, c) !in PairsOf(stored.calls)
      requires Unasked(asked, binding) && stored.binding == "" && stored.phase != CanceledPhase
      modifies this
      ensures old(trace) <= trace && (old(disturbed) ==> disturbed)
      ensures Safe()
      ensures ok ==> && Settled() && Mirrors(r) && stored.results == d.results && stored.binding == d.binding
                     && stored.candidates == d.candidates && stored.phase == d.phase
                     && stored.maxCalls == d.maxCalls && stored.providerCalls >= d.providerCalls
      ensures ok ==> old(asked) <= asked && forall i :: |old(asked)| <= i < |asked| ==> asked[i].binding == binding
      ensures ok ==> forall p :: p in PairsOf(stored.calls) ==> p in old(PairsOf(stored.calls)) || p.binding == binding
      ensures ok ==> forall c :: Pair(binding, c) in PairsOf(stored.calls) ==> c in results
      ensures ok ==> Exact(binding, results, asked)
      ensures ok ==> (status == Supported <==> Answered(asked, binding)) && Best(asked, binding, before, status)
      ensures ok && !only ==> Tried(asked, Spent(stored), binding, plan, |plan.probes|)
      ensures old(Latest(d)) && !disturbed ==> ok && Latest(r)
    {
      hide Safe, Roots, Tried, Exact, Best, Answered, PlanOk;
      r, ok, results, status := d, true, map[], before;
      ghost var earlier, pairs := asked, PairsOf(stored.calls);
      RootsStart(earlier, pairs, binding, plan, before);
      for i := 0 to |plan.probes|
        invariant Safe() && Settled() && Mirrors(r) && ok
        invariant old(trace) <= trace && (old(disturbed) ==> disturbed) && (old(Latest(d)) ==> Latest(r))
        invariant stored.results == d.results && stored.binding == d.binding && stored.candidates == d.candidates
        invariant stored.phase == d.phase && stored.maxCalls == d.maxCalls && stored.providerCalls >= d.providerCalls
        invariant Roots(earlier, asked, pairs, PairsOf(stored.calls), binding, plan, i, results, before, status)
        invariant status != Supported && Tried(asked, Spent(stored), binding, plan, i)
      {
        var probe := plan.probes[i];
        ghost var sofar, called, spent := asked, PairsOf(stored.calls), Spent(stored);
        if probe.dependsOn != [] {
          RootsSkip(earlier, asked, pairs, called, binding, plan, i, results, before, status, spent);
          continue;
        }
        if only || r.providerCalls >= r.maxCalls {
          TriedSpent(asked, binding, plan, i);
          break;
        }
        RootsUnasked(earlier, asked, pairs, called, binding, plan, i, results, before, status);
        var outcome;
        r, outcome := SpendRoot(r, binding, probe);
        if outcome.None? {
          ok := false;
          return;
        }
        RootsNext(earlier, sofar, pairs, called, binding, plan, i, results, before, status, outcome.value,
                  Spent(stored));
        results := results[probe.capability := ProbeResult(outcome.value, true)];
        if Rank(outcome.value) > Rank(status) {
          status := outcome.value;
        }
        if status == Supported {
          break;
        }
      }
      RootsMeans(earlier, asked, pairs, PairsOf(stored.calls), binding, plan, results, before, status);
    }

    /** What identification has spent and learned on the first `i` candidates. */
    ghost predicate Explored(d: Detection, carried: map<string, map<string, ProbeResult>>, names: seq<string>, i: nat)
      requires i <= |names|
      reads `stored, `asked
    {
      && Covered(PairsOf(stored.calls), asked, carried, names[..i]) && Named(asked, d.candidates, names, i)
      && AllTried(asked, Spent(stored), plans, names, i)
    }

    /** One candidate of identifyCapabilityBinding. */
    method TryCandidate(d: Detection, carried: map<string, map<string, ProbeResult>>, ghost names: seq<string>, i: nat)
      returns (r: Detection, ok: bool, next: map<string, map<string, ProbeResult>>)
      requires Safe() && Settled() && Mirrors(d) && i < |names| && Distinct(names)
      requires Explored(d, carried, names, i)
      requires stored.binding == "" && stored.results == map[] && stored.phase == InProgress
      requires forall b :: plans(b).Some? ==> PlanOk(plans(b).value)
      modifies this
      ensures old(trace) <= trace && (old(disturbed) ==> disturbed)
      ensures Safe()
      ensures ok ==> && Settled() && Mirrors(r) && Explored(r, next, names, i + 1)
                     && stored.results == d.results && stored.binding == d.binding && stored.phase == InProgress
      ensures old(Latest(d)) && !disturbed ==> ok && Latest(r)
    {
      hide Safe, Exact, Best, PlanOk, Covered, Named, AllTried, Unasked, Tried, Distinct;
      r, ok, next := d, true, carried;
      NamedHere(asked, d.candidates, names, i);
      var candidate := d.candidates[i];
      var plan := plans(candidate.binding);
      CoveredHere(PairsOf(stored.calls), asked, carried, names, i);
      UnaskedExact(asked, names[i], candidate.status);
      if plan.None? {
        Unexplored(PairsOf(stored.calls), asked, Spent(stored), plans, carried, d.candidates, names, i);
        return;
      }
      var results, status;
      ghost var earlier, pairs, spent := asked, PairsOf(stored.calls), Spent(stored);
      r, ok, results, status := AskRoots(d, candidate.binding, plan.value, |d.candidates| == 1, candidate.status);
      if !ok {
        return;
      }
      next := carried[candidate.binding := results];
      CoveredNext(pairs, PairsOf(stored.calls), earlier, asked, carried, results, names, i);
      NamedNext(earlier, asked, d.candidates, candidate.status, status, names, i);
      TriedNext(earlier, asked, spent, Spent(stored), plans, names, i);
      r := r.(candidates := r.candidates[i := candidate.(status := status)]);
      KeepsCalls(r);
      hide Recorded;
      var put := Put(r);
      if put.None? {
        ok := false;
        return;
      }
      r := put.value;
    }

    /** The record stands at a resolved binding, knows every call on it and shows
        every answer. */
    ghost predicate Resolved()
      reads `stored, `asked
    {
      && stored.binding != "" && stored.phase == InProgress && Exact(stored.binding, stored.results, asked)
      && (forall c :: Pair(stored.binding, c) in PairsOf(stored.calls) ==> c in stored.results)
    }

    /** identifyCapabilityBinding with resolveDetectionBinding. */
    method Identify(d: Detection) returns (r: Detection, resolved: bool)
      requires Safe() && Mirrors(d) && stored.calls == [] && asked == [] && stored.results == map[]
               && stored.binding == "" && stored.phase == InProgress
      requires CandidatesOk(d.candidates)
      requires forall b :: plans(b).Some? ==> PlanOk(plans(b).value)
      modifies this
      ensures old(trace) <= trace && (old(disturbed) ==> disturbed)
      ensures Safe()
      ensures resolved ==> Settled() && Mirrors(r) && Resolved()
      ensures resolved ==> exists k :: 0 <= k < |d.candidates| && d.candidates[k].binding == stored.binding
      ensures resolved && |d.candidates| > 1 ==> forall b :: Answered(asked, b) <==> b == stored.binding
      ensures old(Latest(d)) && !disturbed ==> if resolved then Latest(r) else Unresolved(d.candidates)
      ensures old(Latest(d)) && !disturbed && |d.candidates| > 1 ==>
                AllTried(asked, Spent(stored), plans, Bindings(d.candidates), |d.candidates|)
    {
      hide Safe, Exact, Answered, Tried, Tops;
      r, resolved := d, false;
      ghost var names := Bindings(d.candidates);
      var carried: map<string, map<string, ProbeResult>> := map[];
      var ok := true;
      for i := 0 to |d.candidates|
        invariant Safe() && Settled() && Mirrors(r) && Explored(r, carried, names, i)
        invariant old(trace) <= trace && (old(disturbed) ==> disturbed) && (old(Latest(d)) ==> Latest(r))
        invariant stored.results == map[] && stored.binding == "" && stored.phase == InProgress
      {
        r, ok, carried := TryCandidate(r, carried, names, i);
        if !ok {
          return;
        }
      }
      r, resolved := Settle(r, carried, names);
    }

    /** Nobody answered, or several did, and the record says which. */
    ghost predicate Unresolved(candidates: seq<Candidate>)
      reads `stored, `asked
    {
      && |candidates| != 1 && stored.binding == ""
      && if forall k :: 0 <= k < |candidates| ==> !Answered(asked, candidates[k].binding) then stored.phase == Failed
         else
           && stored.phase == Ambiguous
           && exists k, l :: 0 <= k < l < |candidates| && Answered(asked, candidates[k].binding)
                             && Answered(asked, candidates[l].binding)
    }

    /** The end of identification: the only candidate, or the only one that answered. */
    method Settle(d: Detection, carried: map<string, map<string, ProbeResult>>, ghost names: seq<string>)
      returns (r: Detection, resolved: bool)
      requires Safe() && Settled() && Mirrors(d) && Distinct(names) && (forall k :: 0 <= k < |names| ==> names[k] != "")
      requires Covered(PairsOf(stored.calls), asked, carried, names) && Named(asked, d.candidates, names, |names|)
      requires stored.results == map[] && stored.binding == "" && stored.phase == InProgress
      modifies this`stored, this`trace, this`disturbed
      ensures old(trace) <= trace && (old(disturbed) ==> disturbed)
      ensures Safe()
      ensures resolved ==> Settled() && Mirrors(r) && Resolved() && stored.binding in names
      ensures resolved && |names| > 1 ==> forall b :: Answered(asked, b) <==> b == stored.binding
      ensures old(Latest(d)) && !disturbed ==> if resolved then Latest(r) else Unresolved(d.candidates)
      ensures !disturbed ==> stored.providerCalls == old(stored.providerCalls)
                             && stored.maxCalls == old(stored.maxCalls)
    {
      hide Safe, Exact, Answered, Tops;
      r, resolved := d, false;
      var answered := CollectAnswered(d.candidates);
      if |d.candidates| == 1 {
        answered := [0];
      }
      AnsweredNamed(asked, names);
      if |answered| != 1 {
        FinishFresh(d, if |answered| == 0 then Failed else Ambiguous);
        if |answered| > 1 {
          assert Answered(asked, names[answered[0]]) && Answered(asked, names[answered[1]]);
        }
        return;
      }
      var chosen := d.candidates[answered[0]].binding;
      assert names[answered[0]] == chosen;
      var gone := Deadline();
      if gone {
        FinishFresh(d, Failed);
        return;
      }
      var results := if chosen in carried then carried[chosen] else map[];
      CarriedExact(carried, asked, chosen);
      ExactRecorded(chosen, d.phase, results, asked);
      KeepsCalls(d.(binding := chosen, results := results));
      var put := Put(d.(binding := chosen, results := results));
      if put.None? {
        return;
      }
      r, resolved := put.value, true;
    }

    /** One round of the probe loop. */
    method ProbeNext(probe: Probe) returns (r: Detection, more: bool)
      requires Safe() && Settled() && Resolved()
      modifies this
      ensures old(trace) <= trace && (old(disturbed) ==> disturbed)
      ensures Safe() && (more ==> Settled() && Resolved() && SameCalls(r) && Whole(r, asked))
      ensures old(Latest(stored)) && !disturbed ==> more && Mirrors(r) && Latest(r)
      ensures old(Latest(stored)) && !disturbed ==> Round(old(stored), stored, old(asked), asked, probe)
    {
      hide Safe, Confirmed;
      more := false;
      var current := Get();
      if current.None? {
        r := stored;
        return;
      }
      r := current.value;
      var expired := Deadline();
      if r.cancelRequested || expired {
        FinishCanceled(r);
        return;
      }
      if probe.capability in r.results {
        more := true;
        return;
      }
      if !DependenciesSupported(r.results, probe.dependsOn) || r.providerCalls >= r.maxCalls {
        r := r.(results := r.results[probe.capability := ProbeResult(NotProbed, false)]);
        ExactPlaceholder(r.binding, current.value.results, asked, probe.capability, ProbeResult(NotProbed, false));
        ExactRecorded(r.binding, r.phase, r.results, asked);
        KeepsCalls(r);
        var put := Put(r);
        r := if put.Some? then put.value else r;
        more := true;
        return;
      }
      r, more := AskPlanned(r, probe);
    }

    /** A planned probe whose dependencies are supported. */
    method AskPlanned(d: Detection, probe: Probe) returns (r: Detection, more: bool)
      requires Safe() && Settled() && Resolved() && Mirrors(d) && d.providerCalls < d.maxCalls
      requires probe.capability !in d.results && DependenciesSupported(d.results, probe.dependsOn)
      modifies this
      ensures old(trace) <= trace && (old(disturbed) ==> disturbed)
      ensures Safe() && (more ==> Settled() && Resolved() && SameCalls(r) && Whole(r, asked))
      ensures old(Latest(d)) && !disturbed ==>
                && more && Mirrors(r) && Latest(r) && stored.binding == d.binding && stored.maxCalls == d.maxCalls
                && |asked| == |old(asked)| + 1 && asked[..|old(asked)|] == old(asked)
                && asked[|old(asked)|].binding == d.binding && asked[|old(asked)|].probe == probe
                && stored.results == d.results[probe.capability := ProbeResult(asked[|old(asked)|].outcome, true)]
    {
      hide Safe, Confirmed;
      r, more := d, false;
      var c := probe.capability;
      ghost var earlier := asked;
      DependenciesConfirmed(d.binding, d.results, asked, probe.dependsOn);
      ExactPlaceholder(d.binding, d.results, asked, c, ProbeResult(Inconclusive, false));
      hide Exact;
      var called, outcome := Spend(d.(results := d.results[c := ProbeResult(Inconclusive, false)]), d.binding, probe);
      if called.None? {
        return;
      }
      r := called.value;
      if r.cancelRequested {
        FinishCanceled(r);
        return;
      }
      ExactNext(earlier, asked, d.binding, d.results, probe, outcome);
      r := r.(results := r.results[probe.capability := ProbeResult(outcome, true)]);
      assert r.results == d.results[c := ProbeResult(outcome, true)];
      ExactRecorded(r.binding, r.phase, r.results, asked);
      KeepsCalls(r);
      var put := Put(r);
      if put.Some? {
        r, more := put.value, true;
      }
    }

    /** Capabilities the plan had no room for, unless already known. */
    method Defer(d: Detection, names: seq<string>) returns (r: Option<Detection>)
      requires Safe() && Settled() && Resolved() && Mirrors(d)
      modifies this
      ensures old(trace) <= trace && (old(disturbed) ==> disturbed)
      ensures Safe() && (r.Some? ==> Settled() && Resolved() && Mirrors(r.value) && stored.binding == d.binding)
      ensures old(Latest(d)) && !disturbed ==>
                r.Some? && Latest(r.value) && Filled(d.results, stored.results, names) && asked == old(asked)
    {
      hide Safe, Exact;
      var results := FillIn(d.results, names);
      FilledExact(d.binding, d.results, results, names, asked);
      if results == d.results {
        return Some(d);
      }
      ExactRecorded(d.binding, d.phase, results, asked);
      KeepsCalls(d.(results := results));
      r := Put(d.(results := results));
    }

    /** Every planned capability has a result. */
    ghost predicate Handled(plan: Plan, n: nat)
      requires n <= |plan.probes|
      reads `stored
    {
      forall i :: 0 <= i < n ==> plan.probes[i].capability in stored.results
    }

    /** A record that ran to its end: every planned capability and every other one
        has a result, each an answer or a placeholder, and only one with support
        is finished. */
    ghost predicate RanThrough()
      reads `stored, `asked
    {
      && Exact(stored.binding, stored.results, asked)
      && (plans(stored.binding).Some? ==> Handled(plans(stored.binding).value, |plans(stored.binding).value.probes|))
      && (forall i :: 0 <= i < |capabilities| ==> capabilities[i] in stored.results)
      && (stored.phase == Failed || (stored.phase == Finished && Answered(asked, stored.binding)))
    }

    /** finalizeCapabilityDetection; whether the recommendation offers an operation
        is arbitrary. */
    method Finalize(d: Detection)
      requires Safe() && SameCalls(d) && Whole(d, asked)
      modifies this`stored, this`trace, this`disturbed
      ensures old(trace) <= trace && (old(disturbed) ==> disturbed)
      ensures Safe()
      ensures old(Latest(d)) && !disturbed ==>
                && stored.binding == d.binding && Filled(d.results, stored.results, capabilities)
                && Exact(stored.binding, stored.results, asked)
                && (stored.phase == Failed || (stored.phase == Finished && Answered(asked, d.binding)))
    {
      hide Safe, Exact;
      var results := FillIn(d.results, capabilities);
      FilledExact(d.binding, d.results, results, capabilities, asked);
      var supported := exists c :: c in results && results[c].outcome == Supported;
      if supported {
        SupportedAnswered(d.binding, results, asked);
      }
      var operates := *;
      var phase := if operates && supported then Finished else Failed;
      ExactRecorded(d.binding, phase, results, asked);
      Finish(d, phase, results);
    }

    /** runCapabilityDetection on a detection nothing was spent on yet. */
    method Run()
      requires Safe() && stored.calls == [] && asked == [] && stored.results == map[] && stored.binding == ""
      requires stored.cancelRequested ==> disturbed
      requires CandidatesOk(stored.candidates)
      requires forall b :: plans(b).Some? ==> PlanOk(plans(b).value)
      modifies this
      ensures old(trace) <= trace
      ensures Safe()
      ensures !disturbed ==> RanThrough() || Unresolved(old(stored.candidates)) || NoPlan()
    {
      hide Safe, Exact, Answered;
      var queued := Get();
      if queued.None? {
        return;
      }
      var expired := Deadline();
      if expired {
        FinishFresh(queued.value, Interrupted);
        return;
      }
      KeepsCalls(queued.value.(phase := InProgress));
      var started := Put(queued.value.(phase := InProgress));
      if started.None? {
        return;
      }
      var d, resolved := Identify(started.value);
      if resolved {
        RunPlan(d);
      }
    }

    /** The rest of runCapabilityDetection, on the resolved binding. */
    method RunPlan(start: Detection)
      requires Safe() && Settled() && Resolved() && Mirrors(start)
      modifies this
      ensures old(trace) <= trace && (old(disturbed) ==> disturbed)
      ensures Safe()
      ensures old(Latest(start)) && !disturbed ==> RanThrough() || NoPlan()
    {
      hide Safe, Exact, Answered;
      var d := start;
      var plan := plans(d.binding);
      if plan.None? {
        FinishFresh(d, Failed);
        return;
      }
      var noted := Defer(d, plan.value.deferred);
      if noted.None? {
        return;
      }
      d := noted.value;
      for i := 0 to |plan.value.probes|
        invariant Safe() && Settled() && Resolved() && SameCalls(d) && Whole(d, asked)
        invariant old(trace) <= trace && (old(disturbed) ==> disturbed)
        invariant old(Latest(start)) && !disturbed ==> Mirrors(d) && Latest(d) && d.binding == start.binding
        invariant old(Latest(start)) && !disturbed ==> Handled(plan.value, i)
      {
        var more;
        d, more := ProbeNext(plan.value.probes[i]);
        if !more {
          return;
        }
      }
      Finalize(d);
    }

    /** The only candidate's detector has no plan. */
    ghost predicate NoPlan()
      reads `stored
    {
      stored.phase == Failed && stored.binding != "" && plans(stored.binding).None?
    }
  }

  /** The bindings of the candidates are names, each given once, and none has
      answered yet. */
  ghost predicate CandidatesOk(cs: seq<Candidate>) {
    && (forall k :: 0 <= k < |cs| ==> cs[k].binding != "" && cs[k].status != Supported)
    && (forall i, k :: 0 <= i < k < |cs| ==> cs[i].binding != cs[k].binding)
  }

  function Bindings(cs: seq<Candidate>): seq<string> {
    seq(|cs|, i requires 0 <= i < |cs| => cs[i].binding)
  }

  /** The record shows every answer on its binding. */
  ghost predicate Whole(d: Detection, asked: seq<Ask>) {
    d.binding != "" && Exact(d.binding, d.results, asked)
  }

  ghost predicate Unasked(asked: seq<Ask>, binding: string) {
    forall k :: 0 <= k < |asked| ==> asked[k].binding != binding
  }

  ghost predicate AskedFor(asked: seq<Ask>, binding: string, probe: Probe) {
    exists k :: 0 <= k < |asked| && asked[k].binding == binding && asked[k].probe == probe
  }

  /** Nothing more was to be asked of this binding: a root answered, all roots were
      asked, or the budget is spent. */
  ghost predicate Tried(asked: seq<Ask>, spent: bool, binding: string, plan: Plan, n: nat)
    requires n <= |plan.probes|
  {
    || Answered(asked, binding) || spent
    || forall i :: 0 <= i < n && plan.probes[i].dependsOn == [] ==> AskedFor(asked, binding, plan.probes[i])
  }

  /** The first `i` probes of the plan have been gone through: what was asked on the
      binding is among them, and everything asked is shown. */
  ghost predicate Roots(earlier: seq<Ask>, asked: seq<Ask>, pairs: seq<Pair>, called: seq<Pair>, binding: string,
                        plan: Plan,
                        i: nat, results: map<string, ProbeResult>, before: ProbeOutcome, status: ProbeOutcome)
  {
    && i <= |plan.probes| && earlier <= asked && (forall j :: |earlier| <= j < |asked| ==> asked[j].binding == binding)
    && (forall p :: p in called ==> p in pairs || p.binding == binding)
    && (forall c :: Pair(binding, c) in called ==> c in results)
    && (forall c :: c in results ==> exists j :: 0 <= j < i && plan.probes[j].capability == c)
    && Exact(binding, results, asked) && Best(asked, binding, before, status)
    && (status == Supported <==> Answered(asked, binding))
  }

  lemma RootsStart(asked: seq<Ask>, pairs: seq<Pair>, binding: string, plan: Plan, before: ProbeOutcome)
    requires Unasked(asked, binding) && before != Supported && forall c :: Pair(binding, c) !in pairs
    ensures Roots(asked, asked, pairs, pairs, binding, plan, 0, map[], before, before)
    ensures forall spent :: Tried(asked, spent, binding, plan, 0)
  {
    UnaskedExact(asked, binding, before);
  }

  lemma RootsSkip(earlier: seq<Ask>, asked: seq<Ask>, pairs: seq<Pair>, called: seq<Pair>, binding: string, plan: Plan,
                  i: nat, results: map<string, ProbeResult>, before: ProbeOutcome, status: ProbeOutcome, spent: bool)
    requires Roots(earlier, asked, pairs, called, binding, plan, i, results, before, status)
    requires i < |plan.probes| && plan.probes[i].dependsOn != [] && Tried(asked, spent, binding, plan, i)
    ensures Roots(earlier, asked, pairs, called, binding, plan, i + 1, results, before, status)
    ensures Tried(asked, spent, binding, plan, i + 1)
  {}

  lemma TriedSpent(asked: seq<Ask>, binding: string, plan: Plan, i: nat)
    requires i <= |plan.probes|
    ensures Tried(asked, true, binding, plan, |plan.probes|)
  {}

  lemma RootsUnasked(earlier: seq<Ask>, asked: seq<Ask>, pairs: seq<Pair>, called: seq<Pair>, binding: string,
                     plan: Plan,
                     i: nat, results: map<string, ProbeResult>, before: ProbeOutcome, status: ProbeOutcome)
    requires Roots(earlier, asked, pairs, called, binding, plan, i, results, before, status)
    requires i < |plan.probes| && PlanOk(plan)
    ensures plan.probes[i].capability !in results && Pair(binding, plan.probes[i].capability) !in called
  {}

  lemma RootsNext(earlier: seq<Ask>, asked: seq<Ask>, pairs: seq<Pair>, called: seq<Pair>, binding: string, plan: Plan,
                  i: nat, results: map<string, ProbeResult>, before: ProbeOutcome, status: ProbeOutcome,
                  outcome: ProbeOutcome, spent: bool)
    requires Roots(earlier, asked, pairs, called, binding, plan, i, results, before, status) && status != Supported
    requires i < |plan.probes| && PlanOk(plan)
    requires exists was :: Tried(asked, was, binding, plan, i) && (was ==> spent)
    ensures var probe := plan.probes[i];
            && Roots(earlier, asked + [Ask(binding, probe, outcome)], pairs, called + [Pair(binding, probe.capability)],
                     binding, plan, i + 1, results[probe.capability := ProbeResult(outcome, true)], before,
                     if Rank(outcome) > Rank(status) then outcome else status)
            && Tried(asked + [Ask(binding, probe, outcome)], spent, binding, plan, i + 1)
  {
    var probe := plan.probes[i];
    var more := asked + [Ask(binding, probe, outcome)];
    RootsUnasked(earlier, asked, pairs, called, binding, plan, i, results, before, status);
    AskedOne(asked, more, binding, probe, outcome);
    ExactNext(asked, more, binding, results, probe, outcome);
    BestNext(asked, more, binding, before, status, probe, outcome);
    AskedMore(asked, more);
    hide Exact, Best, Answered, AskedFor, PlanOk, Confirmed;
  }

  lemma RootsMeans(earlier: seq<Ask>, asked: seq<Ask>, pairs: seq<Pair>, called: seq<Pair>, binding: string, plan: Plan,
                   results: map<string, ProbeResult>, before: ProbeOutcome, status: ProbeOutcome)
    requires exists i: nat :: Roots(earlier, asked, pairs, called, binding, plan, i, results, before, status)
    ensures earlier <= asked && (forall j :: |earlier| <= j < |asked| ==> asked[j].binding == binding)
    ensures forall p :: p in called ==> p in pairs || p.binding == binding
    ensures forall c :: Pair(binding, c) in called ==> c in results
    ensures Exact(binding, results, asked) && Best(asked, binding, before, status)
    ensures status == Supported <==> Answered(asked, binding)
    ensures Answered(asked, binding) ==> forall spent :: Tried(asked, spent, binding, plan, |plan.probes|)
  {}

  predicate Spent(d: Detection) {
    d.providerCalls >= d.maxCalls
  }

  /** Identification knows what it spent: results cover every call on a finished
      binding and show every answer, and only finished bindings were called. */
  ghost predicate Covered(pairs: seq<Pair>, asked: seq<Ask>, carried: map<string, map<string, ProbeResult>>,
                          done: seq<string>)
  {
    && (forall p :: p in pairs ==> p.binding in done && p.binding in carried && p.capability in carried[p.binding])
    && (forall b :: b in carried ==> Exact(b, carried[b], asked))
    && (forall k :: 0 <= k < |asked| ==> asked[k].binding in done && asked[k].binding in carried)
  }

  /** The first `i` candidates carry the most telling answer of their binding. */
  ghost predicate Named(asked: seq<Ask>, cs: seq<Candidate>, names: seq<string>, i: nat)
    requires i <= |names|
  {
    && |cs| == |names| && (forall k :: 0 <= k < |names| ==> cs[k].binding == names[k])
    && (forall k :: 0 <= k < i ==> (cs[k].status == Supported <==> Answered(asked, names[k])))
    && (forall k :: 0 <= k < i ==> Tops(asked, names[k], cs[k].status))
    && (forall k :: i <= k < |names| ==> cs[k].status != Supported)
  }

  /** The first `i` of several candidates have been given their chance. */
  ghost predicate AllTried(asked: seq<Ask>, spent: bool, plans: string -> Option<Plan>, names: seq<string>, i: nat)
    requires i <= |names|
  {
    |names| > 1 ==> forall k :: 0 <= k < i && plans(names[k]).Some? ==>
                                  Tried(asked, spent, names[k], plans(names[k]).value, |plans(names[k]).value.probes|)
  }

  lemma NamedHere(asked: seq<Ask>, cs: seq<Candidate>, names: seq<string>, i: nat)
    requires i < |names| && Named(asked, cs, names, i)
    ensures |cs| == |names| && cs[i].binding == names[i] && cs[i].status != Supported
  {}

  lemma CoveredHere(pairs: seq<Pair>, asked: seq<Ask>, carried: map<string, map<string, ProbeResult>>,
                    names: seq<string>,
                    i: nat)
    requires i < |names| && Distinct(names) && Covered(pairs, asked, carried, names[..i])
    ensures Unasked(asked, names[i]) && forall c :: Pair(names[i], c) !in pairs
  {
    assert names[i] !in names[..i];
  }

  /** A candidate without a plan is passed over. */
  lemma Unexplored(pairs: seq<Pair>, asked: seq<Ask>, spent: bool, plans: string -> Option<Plan>,
                   carried: map<string, map<string, ProbeResult>>, cs: seq<Candidate>, names: seq<string>, i: nat)
    requires i < |names| && Covered(pairs, asked, carried, names[..i]) && Named(asked, cs, names, i)
    requires AllTried(asked, spent, plans, names, i) && Unasked(asked, names[i]) && plans(names[i]).None?
    ensures Covered(pairs, asked, carried, names[..i + 1]) && Named(asked, cs, names, i + 1)
    ensures AllTried(asked, spent, plans, names, i + 1)
  {
    hide Exact, Tried;
    assert names[..i + 1] == names[..i] + [names[i]];
  }

  lemma CoveredNext(pairs: seq<Pair>, more: seq<Pair>, earlier: seq<Ask>, asked: seq<Ask>,
                    carried: map<string, map<string, ProbeResult>>, results: map<string, ProbeResult>,
                    names: seq<string>, i: nat)
    requires i < |names| && Distinct(names) && Covered(pairs, earlier, carried, names[..i])
    requires earlier <= asked && forall k :: |earlier| <= k < |asked| ==> asked[k].binding == names[i]
    requires forall p :: p in more ==> p in pairs || p.binding == names[i]
    requires forall c :: Pair(names[i], c) in more ==> c in results
    requires Exact(names[i], results, asked)
    ensures Covered(more, asked, carried[names[i] := results], names[..i + 1])
  {
    CoveredHere(pairs, earlier, carried, names, i);
    ExactElsewhere(earlier, asked, names[i]);
    hide Exact, Unasked;
    assert names[..i + 1] == names[..i] + [names[i]] && names[i] !in names[..i];
    forall p | p in more
      ensures p.binding in names[..i + 1] && p.binding in carried[names[i] := results]
              && p.capability in carried[names[i] := results][p.binding]
    {
      assert p == Pair(p.binding, p.capability);
    }
  }

  lemma ExactElsewhere(earlier: seq<Ask>, asked: seq<Ask>, binding: string)
    requires earlier <= asked && forall k :: |earlier| <= k < |asked| ==> asked[k].binding == binding
    ensures forall b, rs :: b != binding && Exact(b, rs, earlier) ==> Exact(b, rs, asked)
  {
    forall b, rs | b != binding && Exact(b, rs, earlier) ensures Exact(b, rs, asked) {
      forall c, o | AnsweredWith(earlier, b, c, o) ensures AnsweredWith(asked, b, c, o) {
        var k :| 0 <= k < |earlier| && earlier[k].binding == b && earlier[k].probe.capability == c
                 && earlier[k].outcome == o;
        assert asked[k] == earlier[k];
      }
    }
  }

  lemma NamedNext(earlier: seq<Ask>, asked: seq<Ask>, cs: seq<Candidate>, before: ProbeOutcome, status: ProbeOutcome,
                  names: seq<string>, i: nat)
    requires i < |names| && Distinct(names) && Named(earlier, cs, names, i)
    requires earlier <= asked && forall k :: |earlier| <= k < |asked| ==> asked[k].binding == names[i]
    requires (status == Supported <==> Answered(asked, names[i])) && Best(asked, names[i], before, status)
    ensures Named(asked, cs[i := Candidate(names[i], status)], names, i + 1)
  {
    forall k | 0 <= k < i
      ensures Answered(asked, names[k]) <==> Answered(earlier, names[k])
      ensures Tops(asked, names[k], cs[k].status)
    {
      assert names[k] != names[i];
      AnsweredElsewhere(earlier, asked, names[i], names[k]);
    }
  }

  lemma AnsweredElsewhere(earlier: seq<Ask>, asked: seq<Ask>, binding: string, b: string)
    requires earlier <= asked && forall k :: |earlier| <= k < |asked| ==> asked[k].binding == binding
    ensures b != binding ==> (Answered(asked, b) <==> Answered(earlier, b))
    ensures Answered(earlier, b) ==> Answered(asked, b)
  {
    if Answered(earlier, b) {
      var k :| 0 <= k < |earlier| && earlier[k].binding == b && earlier[k].outcome == Supported;
      assert asked[k] == earlier[k];
    }
  }

  lemma TriedNext(earlier: seq<Ask>, asked: seq<Ask>, before: bool, spent: bool, plans: string -> Option<Plan>,
                  names: seq<string>, i: nat)
    requires i < |names| && AllTried(earlier, before, plans, names, i) && (before ==> spent)
    requires earlier <= asked && forall k :: |earlier| <= k < |asked| ==> asked[k].binding == names[i]
    requires |names| > 1 && plans(names[i]).Some? ==>
               Tried(asked, spent, names[i], plans(names[i]).value, |plans(names[i]).value.probes|)
    ensures AllTried(asked, spent, plans, names, i + 1)
  {
    AskedMore(earlier, asked);
    hide AskedFor;
    if |names| > 1 {
      forall k | 0 <= k < i && plans(names[k]).Some?
        ensures Tried(asked, spent, names[k], plans(names[k]).value, |plans(names[k]).value.probes|)
      {
        AnsweredElsewhere(earlier, asked, names[i], names[k]);
        assert Tried(earlier, before, names[k], plans(names[k]).value, |plans(names[k]).value.probes|);
      }
    }
  }

  /** No answer tells more than the kept status. */
  ghost predicate Tops(asked: seq<Ask>, binding: string, status: ProbeOutcome) {
    forall k :: 0 <= k < |asked| && asked[k].binding == binding ==> Rank(asked[k].outcome) <= Rank(status)
  }

  /** The most telling answer, or what was known before. */
  ghost predicate Best(asked: seq<Ask>, binding: string, before: ProbeOutcome, status: ProbeOutcome) {
    && Tops(asked, binding, status) && Rank(before) <= Rank(status)
    && (status == before || exists k :: 0 <= k < |asked| && asked[k].binding == binding && asked[k].outcome == status)
  }

  /** What one round of the probe loop does when nothing comes in between: the
      request leaves exactly if nothing is known, every dependency is supported
      and budget is left, and its answer is stored. */
  ghost predicate Round(before: Detection, after: Detection, earlier: seq<Ask>, asked: seq<Ask>, probe: Probe) {
    && after.binding == before.binding && after.maxCalls == before.maxCalls
    && if probe.capability !in before.results && before.providerCalls < before.maxCalls
          && (forall c :: c in probe.dependsOn ==> c in before.results && before.results[c].outcome == Supported) then
         && |asked| == |earlier| + 1 && asked[..|earlier|] == earlier
         && asked[|earlier|].binding == before.binding && asked[|earlier|].probe == probe
         && after.results == before.results[probe.capability := ProbeResult(asked[|earlier|].outcome, true)]
       else
         && asked == earlier
         && after.results == if probe.capability in before.results then before.results
                             else before.results[probe.capability := ProbeResult(NotProbed, false)]
  }

  /** Only missing names were added, as not probed. */
  ghost predicate Filled(before: map<string, ProbeResult>, after: map<string, ProbeResult>, names: seq<string>) {
    && (forall c :: c in before ==> c in after && after[c] == before[c])
    && (forall c :: c in after && c !in before ==> c in names && after[c] == ProbeResult(NotProbed, false))
    && (forall c :: c in names ==> c in after)
  }

  method FillIn(results: map<string, ProbeResult>, names: seq<string>) returns (r: map<string, ProbeResult>)
    ensures Filled(results, r, names)
  {
    r := results;
    for i := 0 to |names|
      invariant Filled(results, r, names[..i])
    {
      if names[i] !in r {
        r := r[names[i] := ProbeResult(NotProbed, false)];
      }
    }
  }

  lemma FilledExact(binding: string, before: map<string, ProbeResult>, after: map<string, ProbeResult>,
                    names: seq<string>,
                    asked: seq<Ask>)
    requires Filled(before, after, names) && Exact(binding, before, asked)
    ensures Exact(binding, after, asked)
  {}

  lemma SupportedAnswered(binding: string, results: map<string, ProbeResult>, asked: seq<Ask>)
    requires Exact(binding, results, asked) && exists c :: c in results && results[c].outcome == Supported
    ensures Answered(asked, binding)
  {
    var c :| c in results && results[c].outcome == Supported;
    var k :| 0 <= k < |asked| && asked[k].binding == binding && asked[k].probe.capability == c
             && asked[k].outcome == Supported;
  }

  lemma AnsweredNamed(asked: seq<Ask>, names: seq<string>)
    requires forall k :: 0 <= k < |asked| ==> asked[k].binding in names
    ensures forall b :: Answered(asked, b) ==> b in names
  {}

  lemma UnaskedExact(asked: seq<Ask>, binding: string, before: ProbeOutcome)
    requires Unasked(asked, binding)
    ensures Exact(binding, map[], asked) && Best(asked, binding, before, before) && !Answered(asked, binding)
  {}

  lemma ExactPlaceholder(binding: string, results: map<string, ProbeResult>, asked: seq<Ask>, c: string, r: ProbeResult)
    requires Exact(binding, results, asked) && c !in results && Placeholder(r)
    ensures Exact(binding, results[c := r], asked)
  {}

  /** One more answer, recorded as it came. */
  lemma ExactNext(earlier: seq<Ask>, asked: seq<Ask>, binding: string, results: map<string, ProbeResult>, probe: Probe,
                  outcome: ProbeOutcome)
    requires Exact(binding, results, earlier) && asked == earlier + [Ask(binding, probe, outcome)]
    requires probe.capability !in results
    ensures Exact(binding, results[probe.capability := ProbeResult(outcome, true)], asked)
  {
    assert asked[|earlier|] == Ask(binding, probe, outcome);
    forall c | c in results && results[c].completed && AnsweredWith(earlier, binding, c, results[c].outcome)
      ensures AnsweredWith(asked, binding, c, results[c].outcome)
    {
      var k :| 0 <= k < |earlier| && earlier[k].binding == binding && earlier[k].probe.capability == c
               && earlier[k].outcome == results[c].outcome;
      assert asked[k] == earlier[k];
    }
  }

  lemma AwaitedRecorded(resolved: string, phase: Phase, results: map<string, ProbeResult>, earlier: seq<Ask>, a: Ask)
    requires if resolved == "" then results == map[] else Exact(resolved, results, earlier)
    requires resolved != "" && a.binding == resolved ==>
               a.probe.capability in results && Placeholder(results[a.probe.capability])
    ensures Recorded(resolved, phase, results, earlier + [a])
  {
    var asked := earlier + [a];
    if resolved != "" {
      forall c, o | AnsweredWith(earlier, resolved, c, o) ensures AnsweredWith(asked, resolved, c, o) {
        var k :| 0 <= k < |earlier| && earlier[k].binding == resolved && earlier[k].probe.capability == c
                 && earlier[k].outcome == o;
        assert asked[k] == earlier[k];
      }
    }
  }

  lemma BestNext(earlier: seq<Ask>, asked: seq<Ask>, binding: string, before: ProbeOutcome, status: ProbeOutcome,
                 probe: Probe, outcome: ProbeOutcome)
    requires Best(earlier, binding, before, status) && asked == earlier + [Ask(binding, probe, outcome)]
    ensures Best(asked, binding, before, if Rank(outcome) > Rank(status) then outcome else status)
  {
    assert asked[|earlier|].outcome == outcome;
    if status != before {
      var k :| 0 <= k < |earlier| && earlier[k].binding == binding && earlier[k].outcome == status;
      assert asked[k] == earlier[k];
    }
  }

  lemma AskedMore(earlier: seq<Ask>, asked: seq<Ask>)
    requires earlier <= asked
    ensures forall b, p :: AskedFor(earlier, b, p) ==> AskedFor(asked, b, p)
  {
    forall b, p | AskedFor(earlier, b, p) ensures AskedFor(asked, b, p) {
      var k :| 0 <= k < |earlier| && earlier[k].binding == b && earlier[k].probe == p;
      assert asked[k] == earlier[k];
    }
  }

  lemma CarriedExact(carried: map<string, map<string, ProbeResult>>, asked: seq<Ask>, b: string)
    requires b in carried ==> Exact(b, carried[b], asked)
    requires forall k :: 0 <= k < |asked| ==> asked[k].binding in carried
    ensures Exact(b, if b in carried then carried[b] else map[], asked)
  {}

  lemma DependenciesConfirmed(binding: string, results: map<string, ProbeResult>, asked: seq<Ask>,
                              dependsOn: seq<string>)
    requires Exact(binding, results, asked) && DependenciesSupported(results, dependsOn)
    ensures forall c :: c in dependsOn ==> Confirmed(asked, binding, c)
  {
    forall c | c in dependsOn ensures Confirmed(asked, binding, c) {
      var i :| 0 <= i < |dependsOn| && dependsOn[i] == c;
      assert c in results && results[c].outcome == Supported;
    }
  }

  /** The places of the candidates that answered. */
  method CollectAnswered(candidates: seq<Candidate>) returns (found: seq<nat>)
    ensures forall i :: 0 <= i < |found| ==> found[i] < |candidates| && candidates[found[i]].status == Supported
    ensures forall k :: 0 <= k < |candidates| && candidates[k].status == Supported ==> k in found
    ensures forall i, k :: 0 <= i < k < |found| ==> found[i] < found[k]
  {
    found := [];
    for k := 0 to |candidates|
      invariant forall i :: 0 <= i < |found| ==> found[i] < k && candidates[found[i]].status == Supported
      invariant forall j :: 0 <= j < k && candidates[j].status == Supported ==> j in found
      invariant forall i, j :: 0 <= i < j < |found| ==> found[i] < found[j]
    {
      if candidates[k].status == Supported {
        found := found + [k];
      }
    }
  }

  lemma AskedOne(earlier: seq<Ask>, asked: seq<Ask>, binding: string, probe: Probe, outcome: ProbeOutcome)
    requires asked == earlier + [Ask(binding, probe, outcome)]
    ensures forall b, c :: Confirmed(earlier, b, c) ==> Confirmed(asked, b, c)
    ensures outcome == Supported ==> Confirmed(asked, binding, probe.capability)
    ensures AskedFor(asked, binding, probe)
    ensures forall b :: Answered(asked, b) <==> Answered(earlier, b) || (b == binding && outcome == Supported)
  {
    forall b, c | Confirmed(earlier, b, c) ensures Confirmed(asked, b, c) {
      var k :| 0 <= k < |earlier| && earlier[k].binding == b && earlier[k].probe.capability == c
               && earlier[k].outcome == Supported;
      assert asked[k] == earlier[k];
    }
    forall b | Answered(earlier, b) ensures Answered(asked, b) {
      var k :| 0 <= k < |earlier| && earlier[k].binding == b && earlier[k].outcome == Supported;
      assert asked[k] == earlier[k];
    }
    assert asked[|earlier|] == Ask(binding, probe, outcome);
    forall b | Answered(asked, b) ensures Answered(earlier, b) || (b == binding && outcome == Supported) {
      var k :| 0 <= k < |asked| && asked[k].binding == b && asked[k].outcome == Supported;
      assert k < |earlier| ==> earlier[k] == asked[k];
    }
  }
}
