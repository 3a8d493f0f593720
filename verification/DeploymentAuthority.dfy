/** Where a deployment's capabilities may come from: resolution against the
    model catalog and what an edit inherits from the record it replaces
    (internal/app/admin_deployments.go). */
module DeploymentAuthority {
  import opened Basics

  datatype Binding = Binding(id: string, profile: string, enabled: bool, caps: set<string>)

  datatype Origin = Builtin | SignedCatalog | OtherOrigin

  datatype Entry = Entry(caps: set<string>, origin: Origin, revision: string)

  /** `declares` is the mode operator_declared. */
  datatype Input = Input(bindingId: string, profileId: string, caps: Option<set<string>>, declares: bool, enabled: bool,
                         modelRevision: string)

  /** What an update inherits. */
  datatype Prior = Prior(caps: set<string>, snapshot: set<string>)

  /** What the surrounding code answers about bindings and models; `mapped` is
      the reviewed entry an alias was mapped to. */
  datatype World = World(accepts: Binding -> bool, kindOk: Binding -> bool, served: Binding -> bool,
                         lookup: Binding -> Option<Entry>, mapped: Option<Entry>, dependenciesOk: set<string> -> bool)

  datatype Resolution = Resolution(binding: Binding, caps: set<string>, entry: Entry, mapped: bool, declared: bool)

  datatype Refusal = BindingUnavailable | KindMismatch | NotServed | ExceedsMapped | ExceedsCatalog | UnknownModel
                   | NoOperation | BadDependencies | NoBinding | RevisionChanged

  datatype Result = Resolved(value: Resolution) | Refused(reason: Refusal)

  const OPERATIONS: set<string> := {"chat", "embeddings", "moderations", "images", "transcriptions", "speech", "files",
                                    "batches", "rerank", "async_generate"}

  predicate AnyOperation(caps: set<string>) {
    exists c :: c in caps && c in OPERATIONS
  }

  function Declaration(prior: Option<Prior>): set<string> {
    if prior.None? then {} else if AnyOperation(prior.value.snapshot) then prior.value.snapshot else prior.value.caps
  }

  predicate Candidate(b: Binding, input: Input, w: World) {
    b.enabled && (input.bindingId == "" || b.id == input.bindingId)
    && (input.profileId == "" || b.profile == input.profileId) && w.accepts(b)
  }

  function EntryOf(b: Binding, w: World): Entry {
    if w.mapped.Some? then w.mapped.value
    else if w.lookup(b).Some? then w.lookup(b).value
    else Entry({}, OtherOrigin, "")
  }

  predicate Reviewed(b: Binding, w: World) {
    (w.mapped.Some? || w.lookup(b).Some?) && EntryOf(b, w).origin != OtherOrigin
  }

  function Clamped(b: Binding, w: World): set<string> {
    EntryOf(b, w).caps * b.caps
  }

  function Retained(input: Input, prior: Option<Prior>): Option<set<string>> {
    if input.caps.Some? then input.caps else if prior.Some? then Some(prior.value.caps) else None
  }

  predicate InUse(b: Binding, input: Input, w: World) {
    !input.enabled || w.served(b)
  }

  /** Narrowed to what the catalog has established. */
  predicate Established(b: Binding, input: Input, prior: Option<Prior>, w: World) {
    var asked := Retained(input, prior);
    InUse(b, input, w) && Reviewed(b, w) && (asked.None? || asked.value <= Clamped(b, w))
  }

  // ---------------------------------------------------------------------------
  // The order of profiles

  predicate NotAfter(a: string, b: string) {
    a == [] || (b != [] && (a[0] < b[0] || (a[0] == b[0] && NotAfter(a[1..], b[1..]))))
  }

  lemma NotAfterTotal(a: string, b: string)
    ensures NotAfter(a, b) || NotAfter(b, a)
  {}

  lemma NotAfterTransitive(a: string, b: string, c: string)
    requires NotAfter(a, b) && NotAfter(b, c)
    ensures NotAfter(a, c)
  {}

  ghost predicate ByProfile(s: seq<Binding>) {
    forall i, j :: 0 <= i < j < |s| ==> NotAfter(s[i].profile, s[j].profile)
  }

  method InsertByProfile(s: seq<Binding>, b: Binding) returns (r: seq<Binding>)
    requires ByProfile(s)
    ensures ByProfile(r) && forall x :: x in r <==> x in s || x == b
  {
    var p := 0;
    while p < |s| && NotAfter(s[p].profile, b.profile)
      invariant 0 <= p <= |s|
      invariant forall i :: 0 <= i < p ==> NotAfter(s[i].profile, b.profile)
    {
      p := p + 1;
    }
    r := s[..p] + [b] + s[p..];
    forall i | p <= i < |s| ensures NotAfter(b.profile, s[i].profile) {
      NotAfterTotal(b.profile, s[p].profile);
      if p < i {
        NotAfterTransitive(b.profile, s[p].profile, s[i].profile);
      }
    }
  }

  // ---------------------------------------------------------------------------
  // resolveDeploymentTargetWithCatalog

  ghost predicate Collected(bindings: seq<Binding>, found: seq<Binding>, input: Input, w: World) {
    ByProfile(found) && forall b :: b in found <==> b in bindings && Candidate(b, input, w)
  }

  /** The bindings left open by the client's filters and the model, by profile. */
  method CollectCandidates(bindings: seq<Binding>, input: Input, w: World) returns (found: seq<Binding>)
    ensures Collected(bindings, found, input, w)
  {
    found := [];
    for i := 0 to |bindings|
      invariant Collected(bindings[..i], found, input, w)
    {
      if Candidate(bindings[i], input, w) {
        found := InsertByProfile(found, bindings[i]);
      }
    }
  }

  /** Wide enough for a declaration. */
  predicate Wide(b: Binding, asked: set<string>, reviewed: bool, input: Input, w: World) {
    InUse(b, input, w) && Reviewed(b, w) == reviewed && asked <= b.caps
  }

  /** `b` stands first among those of `candidates` that pass the test. */
  ghost predicate FirstOf(candidates: seq<Binding>, test: Binding -> bool, b: Binding) {
    b in candidates && test(b) && forall o :: o in candidates && test(o) ==> NotAfter(b.profile, o.profile)
  }

  method FirstReviewed(candidates: seq<Binding>, input: Input, prior: Option<Prior>, w: World)
    returns (found: Option<Binding>)
    requires ByProfile(candidates)
    ensures found.Some? ==> FirstOf(candidates, b => Established(b, input, prior, w), found.value)
    ensures found.None? ==> forall b :: b in candidates ==> !Established(b, input, prior, w)
  {
    for i := 0 to |candidates|
      invariant forall b :: b in candidates[..i] ==> !Established(b, input, prior, w)
    {
      if Established(candidates[i], input, prior, w) {
        NotAfterTotal(candidates[i].profile, candidates[i].profile);
        return Some(candidates[i]);
      }
    }
    return None;
  }

  method FirstWide(candidates: seq<Binding>, asked: set<string>, reviewed: bool, input: Input, w: World)
    returns (found: Option<Binding>)
    requires ByProfile(candidates)
    ensures found.Some? ==> FirstOf(candidates, b => Wide(b, asked, reviewed, input, w), found.value)
    ensures found.None? ==> forall b :: b in candidates ==> !Wide(b, asked, reviewed, input, w)
  {
    for i := 0 to |candidates|
      invariant forall b :: b in candidates[..i] ==> !Wide(b, asked, reviewed, input, w)
    {
      if Wide(candidates[i], asked, reviewed, input, w) {
        NotAfterTotal(candidates[i].profile, candidates[i].profile);
        return Some(candidates[i]);
      }
    }
    return None;
  }

  predicate RevisionOk(input: Input, entry: Entry) {
    input.modelRevision == "" || input.modelRevision == entry.revision
  }

  predicate Settled(input: Input, prior: Option<Prior>) {
    input.declares || (prior.Some? && Retained(input, prior).value <= Declaration(prior))
  }

  /** A binding the client's filters and the provider leave open. */
  predicate Open(bindings: seq<Binding>, b: Binding, input: Input, w: World) {
    b in bindings && Candidate(b, input, w) && InUse(b, input, w)
  }

  /** The operator's word stands for what is asked. */
  predicate Declarable(input: Input, prior: Option<Prior>, w: World) {
    var asked := Retained(input, prior);
    w.mapped.None? && asked.Some? && Settled(input, prior) && AnyOperation(asked.value) && w.dependenciesOk(asked.value)
  }

  /** How a binding may serve the request: 0 on the catalog's word, 1 and 2 on the
      operator's, where the catalog knows the model there first, 3 not at all. */
  function Rank(b: Binding, input: Input, prior: Option<Prior>, w: World): nat {
    if Established(b, input, prior, w) then 0
    else if Declarable(input, prior, w) && Retained(input, prior).value <= b.caps then if Reviewed(b, w) then 1 else 2
    else 3
  }

  /** An enabled binding that the client's filters and the model leave open, served
      if the deployment is to be. */
  predicate LeftOpen(bindings: seq<Binding>, b: Binding, input: Input, w: World) {
    && b in bindings && b.enabled && (input.bindingId != "" ==> b.id == input.bindingId)
    && (input.profileId != "" ==> b.profile == input.profileId) && w.accepts(b) && (input.enabled ==> w.served(b))
  }

  /** The mapped entry, or else the binding's own, is a reviewed one that holds
      everything asked, and so does the binding's ceiling. */
  predicate CatalogHolds(b: Binding, asked: Option<set<string>>, w: World) {
    var found := if w.mapped.Some? then w.mapped else w.lookup(b);
    && found.Some? && (found.value.origin == Builtin || found.value.origin == SignedCatalog)
    && (asked.Some? ==> forall c :: c in asked.value ==> c in found.value.caps && c in b.caps)
  }

  function Asked(input: Input, prior: Option<Prior>): Option<set<string>> {
    match (input.caps, prior)
    case (Some(caps), _) => Some(caps)
    case (None, Some(p)) => Some(p.caps)
    case (None, None) => None
  }

  /** The catalog's word in plain terms. */
  lemma EstablishedExactly(bindings: seq<Binding>, b: Binding, input: Input, prior: Option<Prior>, w: World)
    ensures Open(bindings, b, input, w) && Rank(b, input, prior, w) == 0 <==>
            LeftOpen(bindings, b, input, w) && CatalogHolds(b, Asked(input, prior), w)
  {
    var asked := Retained(input, prior);
    assert asked == Asked(input, prior);
    if asked.Some? {
      assert asked.value <= Clamped(b, w) <==>
             forall c :: c in asked.value ==> c in EntryOf(b, w).caps && c in b.caps;
    }
    assert Open(bindings, b, input, w) <==> LeftOpen(bindings, b, input, w);
  }

  /** The operator's word in plain terms: no mapped model, and capabilities that
      include an operation, are consistent, fit the binding's ceiling, and were
      declared now or before. */
  lemma DeclaredExactly(b: Binding, input: Input, prior: Option<Prior>, w: World)
    ensures Rank(b, input, prior, w) < 3 && !Established(b, input, prior, w) <==>
            && !Established(b, input, prior, w) && w.mapped.None?
            && var asked := Asked(input, prior);
            && asked.Some? && (exists c :: c in asked.value && c in OPERATIONS) && w.dependenciesOk(asked.value)
            && (forall c :: c in asked.value ==> c in b.caps)
            && (|| input.declares
                || (&& prior.Some?
                    && if exists c :: c in prior.value.snapshot
                                      && c in OPERATIONS then asked.value <= prior.value.snapshot
                       else asked.value <= prior.value.caps))
  {}

  predicate Before(b: Binding, o: Binding, input: Input, prior: Option<Prior>, w: World) {
    var mine, other := Rank(b, input, prior, w), Rank(o, input, prior, w);
    mine < other || (mine == other && NotAfter(b.profile, o.profile))
  }

  /** The open binding of the best rank, and of those the first by profile. */
  ghost predicate Chosen(bindings: seq<Binding>, b: Binding, input: Input, prior: Option<Prior>, w: World) {
    && Open(bindings, b, input, w) && Rank(b, input, prior, w) < 3
    && forall o :: Open(bindings, o, input, w) ==> Before(b, o, input, prior, w)
  }

  /** A binding is chosen whenever some open one could serve the request. */
  lemma {:induction false} ChosenExists(bindings: seq<Binding>, b: Binding, input: Input, prior: Option<Prior>,
                                        w: World)
    requires Open(bindings, b, input, w) && Rank(b, input, prior, w) < 3
    ensures exists c :: Chosen(bindings, c, input, prior, w)
  {
    var n := |bindings| - 1;
    var rest, last := bindings[..n], bindings[n];
    NotAfterTotal(last.profile, last.profile);
    if x :| Open(rest, x, input, w) && Rank(x, input, prior, w) < 3 {
      ChosenExists(rest, x, input, prior, w);
      var c :| Chosen(rest, c, input, prior, w);
      NotAfterTotal(c.profile, last.profile);
      if Open(bindings, last, input, w) && !Before(c, last, input, prior, w) {
        forall o | Open(bindings, o, input, w) ensures Before(last, o, input, prior, w) {
          if o != last {
            assert Before(c, o, input, prior, w);
            if NotAfter(c.profile, o.profile) && NotAfter(last.profile, c.profile) {
              NotAfterTransitive(last.profile, c.profile, o.profile);
            }
          }
        }
        assert Chosen(bindings, last, input, prior, w);
      } else {
        assert Chosen(bindings, c, input, prior, w);
      }
    } else {
      assert Chosen(bindings, last, input, prior, w);
    }
  }

  predicate KindsOk(bindings: seq<Binding>, input: Input, w: World) {
    forall b :: b in bindings && Candidate(b, input, w) ==> w.kindOk(b)
  }

  /** What gives a resolution its capabilities. */
  predicate Authorized(r: Resolution, input: Input, prior: Option<Prior>, w: World) {
    && r.entry == EntryOf(r.binding, w) && r.mapped == w.mapped.Some?
    && (Retained(input, prior).Some? ==> r.caps == Retained(input, prior).value)
    && if r.declared && !r.mapped then
         Retained(input, prior).Some? && r.caps <= r.binding.caps && Settled(input, prior)
       else Reviewed(r.binding, w) && r.caps <= Clamped(r.binding, w)
  }

  /** The answer for a chosen binding: it, if the revision the client claims is
      its entry's. */
  predicate Answers(r: Result, b: Binding, input: Input, w: World) {
    if RevisionOk(input, EntryOf(b, w)) then r.Resolved? && r.value.binding == b else r == Refused(RevisionChanged)
  }

  /** The answer, exact up to bindings that share a profile. */
  ghost predicate Decided(r: Result, bindings: seq<Binding>, input: Input, prior: Option<Prior>, w: World) {
    if KindsOk(bindings, input, w) && exists b :: Chosen(bindings, b, input, prior, w) then
      exists b :: Chosen(bindings, b, input, prior, w) && Answers(r, b, input, w)
    else r.Refused?
  }

  /** What a resolution may stand on. */
  predicate Grounded(r: Resolution, bindings: seq<Binding>, input: Input, prior: Option<Prior>, w: World) {
    && Open(bindings, r.binding, input, w) && Authorized(r, input, prior, w)
    && r.caps <= r.binding.caps && RevisionOk(input, r.entry)
  }

  lemma KnownChosen(bindings: seq<Binding>, candidates: seq<Binding>, b: Binding, input: Input, prior: Option<Prior>,
                    w: World)
    requires Collected(bindings, candidates, input, w)
    requires FirstOf(candidates, x => Established(x, input, prior, w), b)
    ensures Chosen(bindings, b, input, prior, w)
  {}

  lemma WideChosen(bindings: seq<Binding>, candidates: seq<Binding>, b: Binding, reviewed: bool, input: Input,
                   prior: Option<Prior>, w: World)
    requires Collected(bindings, candidates, input, w) && Declarable(input, prior, w)
    requires forall x :: x in candidates ==> !Established(x, input, prior, w)
    requires !reviewed ==> forall x :: x in candidates ==> !Wide(x, Retained(input, prior).value, true, input, w)
    requires FirstOf(candidates, x => Wide(x, Retained(input, prior).value, reviewed, input, w), b)
    ensures Chosen(bindings, b, input, prior, w)
  {
    forall o | Open(bindings, o, input, w) ensures Before(b, o, input, prior, w) {
      assert o in candidates;
    }
  }

  /** Nothing established and the operator's word missing or unusable. */
  lemma NoneChosen(bindings: seq<Binding>, candidates: seq<Binding>, input: Input, prior: Option<Prior>, w: World)
    requires Collected(bindings, candidates, input, w)
    requires forall x :: x in candidates ==> !Established(x, input, prior, w)
    requires Declarable(input, prior, w) ==>
               forall x, reviewed :: x in candidates ==> !Wide(x, Retained(input, prior).value, reviewed, input, w)
    ensures forall b :: !Chosen(bindings, b, input, prior, w)
  {
    forall b | Open(bindings, b, input, w) ensures Rank(b, input, prior, w) == 3 {
      assert b in candidates;
      if Declarable(input, prior, w) {
        assert !Wide(b, Retained(input, prior).value, Reviewed(b, w), input, w);
      }
    }
  }

  method Resolve(bindings: seq<Binding>, input: Input, prior: Option<Prior>, w: World) returns (r: Result)
    requires w.mapped.Some? ==> w.mapped.value.origin != OtherOrigin
    ensures r.Resolved? ==> Grounded(r.value, bindings, input, prior, w)
    ensures Decided(r, bindings, input, prior, w)
  {
    if w.mapped.Some? && !RevisionOk(input, w.mapped.value) {
      return Refused(RevisionChanged);
    }
    var candidates := CollectCandidates(bindings, input, w);
    if candidates == [] {
      NoneChosen(bindings, candidates, input, prior, w);
      return Refused(BindingUnavailable);
    }
    for i := 0 to |candidates|
      invariant forall k :: 0 <= k < i ==> w.kindOk(candidates[k])
    {
      if !w.kindOk(candidates[i]) {
        assert candidates[i] in candidates;
        return Refused(KindMismatch);
      }
    }
    assert KindsOk(bindings, input, w);
    var known := FirstReviewed(candidates, input, prior, w);
    if known.Some? {
      var b, asked := known.value, Retained(input, prior);
      KnownChosen(bindings, candidates, b, input, prior, w);
      if !RevisionOk(input, EntryOf(b, w)) {
        return Refused(RevisionChanged);
      }
      var caps := if asked.Some? then asked.value else Clamped(b, w);
      return Resolved(Resolution(b, caps, EntryOf(b, w), w.mapped.Some?, w.mapped.Some?));
    }
    r := ResolveDeclared(bindings, candidates, input, prior, w);
  }

  /** The second half: no candidate is established, so only the operator's word
      is left. */
  method ResolveDeclared(ghost bindings: seq<Binding>, candidates: seq<Binding>, input: Input, prior: Option<Prior>,
                         w: World) returns (r: Result)
    requires Collected(bindings, candidates, input, w) && KindsOk(bindings, input, w)
    requires forall b :: b in candidates ==> !Established(b, input, prior, w)
    ensures r.Resolved? ==> Grounded(r.value, bindings, input, prior, w)
    ensures Decided(r, bindings, input, prior, w)
  {
    var asked := Retained(input, prior);
    if !exists i :: 0 <= i < |candidates| && InUse(candidates[i], input, w) {
      assert forall b :: b in candidates ==> !InUse(b, input, w);
      NoneChosen(bindings, candidates, input, prior, w);
      return Refused(NotServed);
    }
    if !Declarable(input, prior, w) {
      NoneChosen(bindings, candidates, input, prior, w);
    }
    if w.mapped.Some? {
      return Refused(ExceedsMapped);
    }
    if !Settled(input, prior) {
      var reviewed := exists i :: 0 <= i < |candidates| && InUse(candidates[i], input, w) && Reviewed(candidates[i], w);
      return Refused(if reviewed then ExceedsCatalog else UnknownModel);
    }
    if asked.None? || !AnyOperation(asked.value) {
      return Refused(NoOperation);
    }
    if !w.dependenciesOk(asked.value) {
      return Refused(BadDependencies);
    }
    var wide := FirstWide(candidates, asked.value, true, input, w);
    if wide.Some? {
      WideChosen(bindings, candidates, wide.value, true, input, prior, w);
    } else {
      wide := FirstWide(candidates, asked.value, false, input, w);
      if wide.None? {
        NoneChosen(bindings, candidates, input, prior, w);
        return Refused(NoBinding);
      }
      WideChosen(bindings, candidates, wide.value, false, input, prior, w);
    }
    if !RevisionOk(input, EntryOf(wide.value, w)) {
      return Refused(RevisionChanged);
    }
    return Resolved(Resolution(wide.value, asked.value, EntryOf(wide.value, w), false, true));
  }

  // ---------------------------------------------------------------------------
  // Runs of edits

  /** The snapshot's capabilities for an edit that resolved to `r`. */
  function SnapshotCaps(r: Resolution, input: Input, prior: Option<Prior>, w: World): set<string> {
    if r.declared && !r.mapped then
      if !input.declares && r.caps <= Declaration(prior) then Declaration(prior) else r.caps
    else Clamped(r.binding, w)
  }

  /** An accepted edit: the request, the world it met and what it resolved to. */
  datatype Edit = Edit(bindings: seq<Binding>, input: Input, world: World, resolution: Resolution)

  predicate Accepted(prior: Option<Prior>, e: Edit) {
    && Open(e.bindings, e.resolution.binding, e.input, e.world)
    && Authorized(e.resolution, e.input, prior, e.world)
  }

  function AfterEdits(edits: seq<Edit>): Option<Prior> {
    if edits == [] then None
    else
      var n := |edits| - 1;
      var e, prior := edits[n], AfterEdits(edits[..n]);
      Some(Prior(e.resolution.caps, SnapshotCaps(e.resolution, e.input, prior, e.world)))
  }

  ghost predicate RunOk(edits: seq<Edit>) {
    forall i :: 0 <= i < |edits| ==> Accepted(AfterEdits(edits[..i]), edits[i])
  }

  /** This edit is an authority for the capability: a reviewed entry clamped to
      the binding it resolved to, or the operator's own word. */
  predicate Grants(e: Edit, c: string) {
    || (Reviewed(e.resolution.binding, e.world) && c in Clamped(e.resolution.binding, e.world))
    || (e.input.declares && c in e.resolution.caps)
  }

  ghost predicate Traced(edits: seq<Edit>, c: string) {
    exists i :: 0 <= i < |edits| && Grants(edits[i], c)
  }

  lemma TracedLonger(edits: seq<Edit>, n: nat, c: string)
    requires n <= |edits| && Traced(edits[..n], c)
    ensures Traced(edits, c)
  {}

  /** Over every run of accepted edits each capability, in use or only declared,
      traces to an authority, and the ones in use stay within an enabled binding
      that passes the client's filters. */
  lemma {:induction false} EveryCapabilityTraced(edits: seq<Edit>, c: string)
    requires RunOk(edits) && edits != []
    requires c in AfterEdits(edits).value.caps || c in AfterEdits(edits).value.snapshot
    ensures Traced(edits, c)
    ensures var e := edits[|edits| - 1];
            AfterEdits(edits).value.caps <= e.resolution.binding.caps && e.resolution.binding.enabled
  {
    var n := |edits| - 1;
    var e, prior := edits[n], AfterEdits(edits[..n]);
    assert Accepted(prior, e);
    if !Grants(e, c) {
      assert c in Declaration(prior);
      assert RunOk(edits[..n]) by {
        forall i | 0 <= i < n ensures Accepted(AfterEdits(edits[..n][..i]), edits[..n][i]) {
          assert edits[..n][..i] == edits[..i];
        }
      }
      EveryCapabilityTraced(edits[..n], c);
      TracedLonger(edits, n, c);
    } else {
      assert Grants(edits[n], c);
    }
  }
}
