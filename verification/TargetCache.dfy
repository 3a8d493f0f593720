/** The invocation-target cache under any interleaving of fetches, clears and
    revision changes (internal/app/admin_invocation_targets.go).

    A fetch draws a number, registers it under the lock, lists without the lock
    and publishes under the lock.  Every step below is one of those sections. */
module TargetCache {
  import opened Basics

  /** five minutes, in seconds */
  const TTL: nat := 300

  datatype Key = Key(provider: string, binding: string)

  /** A registration without a listing has `expiresAt` 0. */
  datatype Entry = Entry(items: seq<string>, expiresAt: nat, provider: nat, credential: nat, sequence: nat)

  datatype Phase = Numbered | Registered | Listed(items: seq<string>) | Done

  /** One call of fetchInvocationTargetCatalog with the revisions it read. */
  datatype Fetch = Fetch(key: Key, provider: nat, credential: nat, sequence: nat, phase: Phase)

  datatype Event =
    | Registration(fetch: nat, key: Key)
    | Clearing(only: Option<string>)
    | Listing(fetch: nat, key: Key, provider: nat, credential: nat, items: seq<string>)
    | Publication(fetch: nat, key: Key)
    | Serving(key: Key, provider: nat, credential: nat, items: seq<string>)

  /** The counter, the locked map, the calls under way, and what happened. */
  datatype Cache = Cache(counter: nat, entries: map<Key, Entry>, fetches: map<nat, Fetch>, log: seq<Event>)

  /** `Clear` with no provider clears everything. */
  datatype Action =
    | Draw(fetch: nat, key: Key, provider: nat, credential: nat)
    | Register(fetch: nat)
    | List(fetch: nat, items: seq<string>)
    | Abandon(fetch: nat)
    | Publish(fetch: nat, now: nat)
    | Clear(only: Option<string>)
    | Read(key: Key, provider: nat, credential: nat, now: nat)

  predicate Cleared(only: Option<string>, k: Key) {
    only.None? || only.value == k.provider
  }

  /** beginInvocationTargetFetch under the lock: only the number changes. */
  function WithSequence(entries: map<Key, Entry>, k: Key, sequence: nat): map<Key, Entry> {
    entries[k := (if k in entries then entries[k] else Entry([], 0, 0, 0, 0)).(sequence := sequence)]
  }

  predicate Servable(e: Entry, provider: nat, credential: nat, now: nat) {
    now < e.expiresAt && e.provider == provider && e.credential == credential
  }

  function Publishing(s: Cache, id: nat, now: nat): Cache
    requires id in s.fetches && s.fetches[id].phase.Listed?
  {
    var f := s.fetches[id];
    var done := s.fetches[id := f.(phase := Done)];
    if f.key in s.entries && s.entries[f.key].sequence == f.sequence then
      Cache(s.counter, s.entries[f.key := Entry(f.phase.items, now + TTL, f.provider, f.credential, f.sequence)], done,
            s.log + [Publication(id, f.key), Serving(f.key, f.provider, f.credential, f.phase.items)])
    else if f.key in s.entries && Servable(s.entries[f.key], f.provider, f.credential, now) then
      s.(fetches := done, log := s.log + [Serving(f.key, f.provider, f.credential, s.entries[f.key].items)])
    else s.(fetches := done)
  }

  function Next(s: Cache, a: Action): Cache {
    match a
    case Draw(id, key, provider, credential) =>
      if id in s.fetches then s
      else s.(counter := s.counter + 1,
           fetches := s.fetches[id := Fetch(key, provider, credential, s.counter + 1, Numbered)])
    case Register(id) =>
      if id !in s.fetches || !s.fetches[id].phase.Numbered? then s
      else
        var f := s.fetches[id];
        Cache(s.counter, WithSequence(s.entries, f.key, f.sequence), s.fetches[id := f.(phase := Registered)],
              s.log + [Registration(id, f.key)])
    case List(id, items) =>
      if id !in s.fetches || !s.fetches[id].phase.Registered? then s
      else
        var f := s.fetches[id];
        s.(fetches := s.fetches[id := f.(phase := Listed(items))],
        log := s.log + [Listing(id, f.key, f.provider, f.credential, items)])
    case Abandon(id) =>
      if id !in s.fetches then s else s.(fetches := s.fetches[id := s.fetches[id].(phase := Done)])
    case Publish(id, now) =>
      if id !in s.fetches || !s.fetches[id].phase.Listed? then s else Publishing(s, id, now)
    case Clear(only) =>
      s.(entries := map k | k in s.entries && !Cleared(only, k) :: s.entries[k], log := s.log + [Clearing(only)])
    case Read(key, provider, credential, now) =>
      if key in s.entries && Servable(s.entries[key], provider, credential, now) then
        s.(log := s.log + [Serving(key, provider, credential, s.entries[key].items)])
      else s
  }

  function Run(actions: seq<Action>): Cache {
    if actions == [] then Cache(0, map[], map[], []) else Next(Run(actions[..|actions| - 1]), actions[|actions| - 1])
  }

  // ---------------------------------------------------------------------------
  // What the log says

  /** Who registered last for the key since it was last cleared. */
  function Holder(log: seq<Event>, k: Key): Option<nat> {
    if log == [] then None
    else
      var e, before := log[|log| - 1], Holder(log[..|log| - 1], k);
      if e.Registration? && e.key == k then Some(e.fetch)
      else if Clears(e, k) then None
      else before
  }

  predicate Clears(e: Event, k: Key) {
    e.Clearing? && Cleared(e.only, k)
  }

  /** Fetch `id` registered for the key and then listed this. */
  ghost predicate ListedBy(log: seq<Event>, m: nat, id: nat, k: Key, provider: nat, credential: nat,
                           items: seq<string>)
  {
    && m < |log| && log[m] == Registration(id, k)
    && exists l :: m < l < |log| && log[l] == Listing(id, k, provider, credential, items)
  }

  ghost predicate ClearedAfter(log: seq<Event>, m: nat, k: Key) {
    exists i :: m < i < |log| && Clears(log[i], k)
  }

  /** Some fetch registered for the key after it was last cleared, and then
      listed this with these revisions. */
  ghost predicate ListedSince(log: seq<Event>, k: Key, provider: nat, credential: nat, items: seq<string>) {
    exists m: nat, id: nat :: ListedBy(log, m, id, k, provider, credential, items) && !ClearedAfter(log, m, k)
  }

  ghost predicate OwnListed(log: seq<Event>, id: nat, f: Fetch)
    requires f.phase.Listed?
  {
    exists m: nat :: ListedBy(log, m, id, f.key, f.provider, f.credential, f.phase.items)
  }

  ghost predicate Legal(before: seq<Event>, e: Event) {
    match e
    case Registration(id, _) => forall i :: 0 <= i < |before| ==> !(before[i].Registration? && before[i].fetch == id)
    case Publication(id, k) => Holder(before, k) == Some(id)
    case Serving(k, provider, credential, items) => ListedSince(before, k, provider, credential, items)
    case Clearing(_) => true
    case Listing(_, _, _, _, _) => true
  }

  ghost predicate LegalAt(log: seq<Event>, i: nat)
    requires i < |log|
  {
    Legal(log[..i], log[i])
  }

  ghost predicate LegalLog(log: seq<Event>) {
    forall i :: 0 <= i < |log| ==> LegalAt(log, i)
  }

  lemma LegalSnoc(log: seq<Event>, e: Event)
    requires LegalLog(log) && Legal(log, e)
    ensures LegalLog(log + [e])
  {
    var all := log + [e];
    forall i | 0 <= i < |all| ensures LegalAt(all, i) {
      if i < |log| {
        assert all[..i] == log[..i] && all[i] == log[i] && LegalAt(log, i);
      } else {
        assert all[..i] == log;
      }
    }
  }

  lemma HolderSnoc(log: seq<Event>, e: Event, k: Key)
    ensures Holder(log + [e], k) == if e.Registration? && e.key == k then Some(e.fetch)
                                    else if Clears(e, k) then None else Holder(log, k)
  {}

  lemma BySnoc(log: seq<Event>, e: Event, m: nat, id: nat, k: Key, provider: nat, credential: nat, items: seq<string>)
    requires ListedBy(log, m, id, k, provider, credential, items)
    ensures ListedBy(log + [e], m, id, k, provider, credential, items)
    ensures !Clears(e, k) && !ClearedAfter(log, m, k) ==> !ClearedAfter(log + [e], m, k)
  {
    var l :| m < l < |log| && log[l] == Listing(id, k, provider, credential, items);
    assert (log + [e])[l] == log[l] && (log + [e])[m] == log[m];
    if !Clears(e, k) && !ClearedAfter(log, m, k) {
      forall i | m < i < |log + [e]| ensures !Clears((log + [e])[i], k) {
        if i < |log| {
          assert (log + [e])[i] == log[i];
        }
      }
    }
  }

  lemma SinceSnoc(log: seq<Event>, e: Event, k: Key, provider: nat, credential: nat, items: seq<string>)
    requires ListedSince(log, k, provider, credential, items) && !Clears(e, k)
    ensures ListedSince(log + [e], k, provider, credential, items)
  {
    var m: nat, id: nat :| ListedBy(log, m, id, k, provider, credential, items) && !ClearedAfter(log, m, k);
    BySnoc(log, e, m, id, k, provider, credential, items);
  }

  lemma OwnSnoc(log: seq<Event>, e: Event, id: nat, f: Fetch)
    requires f.phase.Listed? && OwnListed(log, id, f)
    ensures OwnListed(log + [e], id, f)
  {
    var m: nat :| ListedBy(log, m, id, f.key, f.provider, f.credential, f.phase.items);
    BySnoc(log, e, m, id, f.key, f.provider, f.credential, f.phase.items);
  }

  // ---------------------------------------------------------------------------
  // What every step keeps

  ghost predicate FetchOk(s: Cache, id: nat)
    requires id in s.fetches
  {
    var f := s.fetches[id];
    && f.sequence <= s.counter
    && (f.phase.Numbered? ==> forall i :: 0 <= i < |s.log| ==> !(s.log[i].Registration? && s.log[i].fetch == id))
    && (f.phase.Registered? ==> exists m: nat :: m < |s.log| && s.log[m] == Registration(id, f.key))
    && (f.phase.Listed? ==> OwnListed(s.log, id, f))
  }

  ghost predicate EntryOk(s: Cache, k: Key) {
    && (k in s.entries <==> Holder(s.log, k).Some?)
    && (k in s.entries ==>
          var id, e := Holder(s.log, k).value, s.entries[k];
          && id in s.fetches && s.fetches[id].key == k && s.fetches[id].sequence == e.sequence
          && !s.fetches[id].phase.Numbered?
          && (e.expiresAt > 0 ==> ListedSince(s.log, k, e.provider, e.credential, e.items)))
  }

  ghost predicate Sound(s: Cache) {
    && LegalLog(s.log)
    && (forall id :: id in s.fetches ==> FetchOk(s, id))
    && (forall a, b :: a in s.fetches && b in s.fetches && s.fetches[a].sequence == s.fetches[b].sequence ==> a == b)
    && (forall i :: 0 <= i < |s.log| && s.log[i].Registration? ==> s.log[i].fetch in s.fetches)
    && (forall k: Key :: EntryOk(s, k))
  }

  /** More events take nothing from a fetch. */
  lemma FetchSnoc(s: Cache, e: Event, id: nat)
    requires id in s.fetches && FetchOk(s, id) && !(e.Registration? && e.fetch == id && s.fetches[id].phase.Numbered?)
    ensures FetchOk(s.(log := s.log + [e]), id)
  {
    var f := s.fetches[id];
    if f.phase.Listed? {
      OwnSnoc(s.log, e, id, f);
    } else if f.phase.Registered? {
      var m: nat :| m < |s.log| && s.log[m] == Registration(id, f.key);
      assert (s.log + [e])[m] == s.log[m];
    }
  }

  /** Appending one event that changes no holder. */
  lemma Noted(s: Cache, e: Event)
    requires Sound(s) && Legal(s.log, e) && !e.Registration? && !e.Clearing?
    ensures Sound(s.(log := s.log + [e]))
  {
    var t := s.(log := s.log + [e]);
    LegalSnoc(s.log, e);
    hide Legal, ListedSince, OwnListed;
    forall id | id in t.fetches ensures FetchOk(t, id) {
      FetchSnoc(s, e, id);
    }
    forall k: Key ensures EntryOk(t, k) {
      assert EntryOk(s, k);
      HolderSnoc(s.log, e, k);
      if k in s.entries && s.entries[k].expiresAt > 0 {
        var x := s.entries[k];
        SinceSnoc(s.log, e, k, x.provider, x.credential, x.items);
      }
    }
  }

  /** A fetch moves on; no entry changes. */
  lemma Advanced(s: Cache, id: nat, phase: Phase)
    requires Sound(s) && id in s.fetches && (phase.Listed? || phase.Done?)
    requires phase.Listed? ==> OwnListed(s.log, id, s.fetches[id].(phase := phase))
    ensures Sound(s.(fetches := s.fetches[id := s.fetches[id].(phase := phase)]))
  {
    hide ListedSince, OwnListed, LegalLog;
    var t := s.(fetches := s.fetches[id := s.fetches[id].(phase := phase)]);
    forall o | o in t.fetches ensures FetchOk(t, o) {
      assert FetchOk(s, o);
    }
    forall k: Key ensures EntryOk(t, k) {
      assert EntryOk(s, k);
    }
  }

  lemma DrawKeeps(s: Cache, a: Action)
    requires Sound(s) && a.Draw?
    ensures Sound(Next(s, a))
  {
    hide ListedSince, OwnListed, LegalLog;
    var t := Next(s, a);
    if a.fetch !in s.fetches {
      forall o | o in t.fetches ensures FetchOk(t, o) {
        if o != a.fetch {
          assert FetchOk(s, o);
        }
      }
      forall o | o in s.fetches ensures s.fetches[o].sequence < s.counter + 1 {
        assert FetchOk(s, o);
      }
      forall k: Key ensures EntryOk(t, k) {
        assert EntryOk(s, k);
      }
    }
  }

  lemma RegisterKeeps(s: Cache, a: Action)
    requires Sound(s) && a.Register?
    ensures Sound(Next(s, a))
  {
    var t := Next(s, a);
    if a.fetch in s.fetches && s.fetches[a.fetch].phase.Numbered? {
      var f := s.fetches[a.fetch];
      var e := Registration(a.fetch, f.key);
      assert FetchOk(s, a.fetch);
      LegalSnoc(s.log, e);
      hide ListedSince, OwnListed, LegalLog;
      forall o | o in t.fetches ensures FetchOk(t, o) {
        if o != a.fetch {
          FetchSnoc(s, e, o);
        } else {
          assert t.log[|s.log|] == e;
        }
      }
      forall k: Key ensures EntryOk(t, k) {
        assert EntryOk(s, k);
        HolderSnoc(s.log, e, k);
        if k in s.entries && s.entries[k].expiresAt > 0 {
          var x := s.entries[k];
          SinceSnoc(s.log, e, k, x.provider, x.credential, x.items);
        }
      }
    }
  }

  lemma ClearKeeps(s: Cache, a: Action)
    requires Sound(s) && a.Clear?
    ensures Sound(Next(s, a))
  {
    var t, e := Next(s, a), Clearing(a.only);
    LegalSnoc(s.log, e);
    hide ListedSince, OwnListed, LegalLog;
    forall o | o in t.fetches ensures FetchOk(t, o) {
      FetchSnoc(s, e, o);
    }
    forall k: Key ensures EntryOk(t, k) {
      assert EntryOk(s, k);
      HolderSnoc(s.log, e, k);
      if k in t.entries && s.entries[k].expiresAt > 0 {
        var x := s.entries[k];
        SinceSnoc(s.log, e, k, x.provider, x.credential, x.items);
      }
    }
  }

  /** A fetch finds its own number in the map exactly if it registered last
      since the last clear. */
  lemma HoldsExactly(s: Cache, id: nat)
    requires Sound(s) && id in s.fetches
    ensures var f := s.fetches[id];
            !f.phase.Numbered? ==>
              (f.key in s.entries && s.entries[f.key].sequence == f.sequence <==> Holder(s.log, f.key) == Some(id))
  {
    assert EntryOk(s, s.fetches[id].key);
  }

  lemma ListKeeps(s: Cache, a: Action)
    requires Sound(s) && a.List?
    ensures Sound(Next(s, a))
  {
    if a.fetch in s.fetches && s.fetches[a.fetch].phase.Registered? {
      var id, f := a.fetch, s.fetches[a.fetch];
      var e := Listing(id, f.key, f.provider, f.credential, a.items);
      assert FetchOk(s, id);
      var m: nat :| m < |s.log| && s.log[m] == Registration(id, f.key);
      var log := s.log + [e];
      assert log[m] == s.log[m] && log[|s.log|] == e;
      assert ListedBy(log, m, id, f.key, f.provider, f.credential, a.items);
      Noted(s, e);
      hide Sound;
      Advanced(s.(log := log), id, Listed(a.items));
    }
  }

  lemma ReadKeeps(s: Cache, a: Action)
    requires Sound(s) && a.Read?
    ensures Sound(Next(s, a))
  {
    if a.key in s.entries && Servable(s.entries[a.key], a.provider, a.credential, a.now) {
      assert EntryOk(s, a.key);
      Noted(s, Serving(a.key, a.provider, a.credential, s.entries[a.key].items));
    }
  }

  /** The holder registered after the last clear, so its listing counts. */
  lemma HolderListed(s: Cache, id: nat)
    requires Sound(s) && id in s.fetches && s.fetches[id].phase.Listed?
    requires Holder(s.log, s.fetches[id].key) == Some(id)
    ensures var f := s.fetches[id]; ListedSince(s.log, f.key, f.provider, f.credential, f.phase.items)
  {
    var f := s.fetches[id];
    assert FetchOk(s, id);
    var m: nat :| ListedBy(s.log, m, id, f.key, f.provider, f.credential, f.phase.items);
    HolderNotCleared(s.log, m, id, f.key);
  }

  lemma {:induction false} HolderNotCleared(log: seq<Event>, m: nat, id: nat, k: Key)
    requires LegalLog(log) && m < |log| && log[m] == Registration(id, k) && Holder(log, k) == Some(id)
    ensures !ClearedAfter(log, m, k)
  {
    var n := |log| - 1;
    if m < n {
      RegisteredOnce(log, m, n, id, k);
      LegalPrefix(log, n);
      HolderNotCleared(log[..n], m, id, k);
      forall i | m < i < |log| ensures !Clears(log[i], k) {
        if i < n {
          assert log[..n][i] == log[i];
        }
      }
    }
  }

  lemma LegalPrefix(log: seq<Event>, n: nat)
    requires LegalLog(log) && n <= |log|
    ensures LegalLog(log[..n])
  {
    forall i | 0 <= i < n ensures LegalAt(log[..n], i) {
      assert LegalAt(log, i) && log[..n][..i] == log[..i];
    }
  }

  /** Replacing the holder's entry by its own listing. */
  lemma Replaced(s: Cache, id: nat, now: nat)
    requires Sound(s) && id in s.fetches && s.fetches[id].phase.Listed?
    requires Holder(s.log, s.fetches[id].key) == Some(id)
    ensures var f := s.fetches[id];
            Sound(s.(entries := s.entries[f.key := Entry(f.phase.items, now + TTL, f.provider, f.credential,
                                                         f.sequence)]))
  {
    var f := s.fetches[id];
    var t := s.(entries := s.entries[f.key := Entry(f.phase.items, now + TTL, f.provider, f.credential, f.sequence)]);
    HolderListed(s, id);
    hide ListedSince, OwnListed, LegalLog;
    forall o | o in t.fetches ensures FetchOk(t, o) {
      assert FetchOk(s, o);
    }
    forall k: Key ensures EntryOk(t, k) {
      assert EntryOk(s, k);
    }
  }

  lemma PublishKeeps(s: Cache, a: Action)
    requires Sound(s) && a.Publish?
    ensures Sound(Next(s, a))
  {
    hide Sound, ListedSince;
    if a.fetch in s.fetches && s.fetches[a.fetch].phase.Listed? {
      var id, f := a.fetch, s.fetches[a.fetch];
      HoldsExactly(s, id);
      if Holder(s.log, f.key) == Some(id) {
        Replaced(s, id, a.now);
        HolderListed(s, id);
        var entries := s.entries[f.key := Entry(f.phase.items, a.now + TTL, f.provider, f.credential, f.sequence)];
        var s1 := s.(entries := entries);
        var published, served := Publication(id, f.key), Serving(f.key, f.provider, f.credential, f.phase.items);
        Noted(s1, published);
        var s2 := s1.(log := s1.log + [published]);
        SinceSnoc(s.log, published, f.key, f.provider, f.credential, f.phase.items);
        Noted(s2, served);
        Advanced(s2.(log := s2.log + [served]), id, Done);
        assert s.log + [published] + [served] == s.log + [published, served];
      } else if f.key in s.entries && Servable(s.entries[f.key], f.provider, f.credential, a.now) {
        EntryListing(s, f.key);
        var served := Serving(f.key, f.provider, f.credential, s.entries[f.key].items);
        Noted(s, served);
        Advanced(s.(log := s.log + [served]), id, Done);
      } else {
        Advanced(s, id, Done);
      }
    }
  }

  lemma EntryListing(s: Cache, k: Key)
    requires Sound(s) && k in s.entries && s.entries[k].expiresAt > 0
    ensures var e := s.entries[k]; ListedSince(s.log, k, e.provider, e.credential, e.items)
  {
    assert EntryOk(s, k);
  }

  lemma StepKeeps(s: Cache, a: Action)
    requires Sound(s)
    ensures Sound(Next(s, a))
  {
    hide Sound;
    match a
    case Draw(_, _, _, _) => DrawKeeps(s, a);
    case Register(_) => RegisterKeeps(s, a);
    case List(_, _) => ListKeeps(s, a);
    case Abandon(id) =>
      if id in s.fetches {
        Advanced(s, id, Done);
      }
    case Publish(_, _) => PublishKeeps(s, a);
    case Clear(_) => ClearKeeps(s, a);
    case Read(_, _, _, _) => ReadKeeps(s, a);
  }

  lemma {:induction false} RunSound(actions: seq<Action>)
    ensures Sound(Run(actions))
  {
    if actions != [] {
      var n := |actions| - 1;
      RunSound(actions[..n]);
      StepKeeps(Run(actions[..n]), actions[n]);
    }
  }

  // ---------------------------------------------------------------------------
  // What a reader may conclude

  /** In any interleaving a fetch publishes if and only if nobody registered for
      its key after it and nothing cleared the key since. */
  lemma OnlyTheLastPublishes(actions: seq<Action>, id: nat, now: nat)
    requires var s := Run(actions); id in s.fetches && s.fetches[id].phase.Listed?
    ensures var s, t := Run(actions), Next(Run(actions), Publish(id, now));
            && s.log <= t.log
            && var k := s.fetches[id].key;
            Publication(id, k) in t.log[|s.log|..] <==> Holder(s.log, k) == Some(id)
  {
    RunSound(actions);
    var s := Run(actions);
    HoldsExactly(s, id);
    var t, k := Next(s, Publish(id, now)), s.fetches[id].key;
    if Holder(s.log, k) == Some(id) {
      assert t.log[|s.log|..][0] == Publication(id, k);
    }
  }

  lemma RegisteredOnce(log: seq<Event>, m: nat, n: nat, id: nat, k: Key)
    requires LegalLog(log) && m < n < |log| && log[m] == Registration(id, k)
    ensures log[n] != Registration(id, k)
  {
    assert LegalAt(log, n) && log[..n][m] == log[m];
  }

  lemma {:induction false} ClearedHolder(log: seq<Event>, k: Key, i: nat, id: nat)
    requires i < |log| && Clears(log[i], k)
    requires forall n :: i < n < |log| ==> log[n] != Registration(id, k)
    ensures Holder(log, k) != Some(id)
  {
    var n := |log| - 1;
    if i < n {
      ClearedHolder(log[..n], k, i, id);
    }
  }

  /** A fetch that registered before a clear never publishes after it. */
  lemma ClearIsFinal(actions: seq<Action>, m: nat, i: nat, j: nat, id: nat, k: Key)
    requires var log := Run(actions).log;
             m < i < j < |log| && log[m] == Registration(id, k) && Clears(log[i], k)
    ensures Run(actions).log[j] != Publication(id, k)
  {
    RunSound(actions);
    var log := Run(actions).log;
    forall n | i < n < j ensures log[..j][n] != Registration(id, k) {
      RegisteredOnce(log, m, n, id, k);
    }
    ClearedHolder(log[..j], k, i, id);
    assert LegalAt(log, j);
  }

  /** What is served for a key and a pair of revisions was listed with that pair
      by a fetch that registered for the key and saw no clear of it since. */
  lemma ServedWasListed(actions: seq<Action>, j: nat)
    requires j < |Run(actions).log| && Run(actions).log[j].Serving?
    ensures var log := Run(actions).log;
            exists m, l :: 0 <= m < l < j && log[m].Registration? && log[m].key == log[j].key
                           && log[l] == Listing(log[m].fetch, log[j].key, log[j].provider, log[j].credential,
                                                log[j].items)
                           && forall i :: m < i < j ==> !Clears(log[i], log[j].key)
  {
    RunSound(actions);
    var log := Run(actions).log;
    var e, before := log[j], log[..j];
    assert LegalAt(log, j);
    var m: nat, id: nat :| ListedBy(before, m, id, e.key, e.provider, e.credential, e.items)
                           && !ClearedAfter(before, m, e.key);
    var l :| m < l < |before| && before[l] == Listing(id, e.key, e.provider, e.credential, e.items);
    assert log[m] == before[m] && log[l] == before[l];
    forall i | m < i < j ensures !Clears(log[i], e.key) {
      assert before[i] == log[i];
    }
  }

  // ---------------------------------------------------------------------------
  // What is published is served

  /** The entry still holds this listing; only its number may have changed. */
  predicate Offers(s: Cache, k: Key, items: seq<string>, until: nat, provider: nat, credential: nat) {
    k in s.entries && s.entries[k] == Entry(items, until, provider, credential, s.entries[k].sequence)
  }

  /** The event replaces or removes the key's listing. */
  predicate Ends(e: Event, k: Key) {
    Clears(e, k) || (e.Publication? && e.key == k)
  }

  lemma StepOffers(s: Cache, a: Action, k: Key, items: seq<string>, until: nat, provider: nat, credential: nat)
    requires Offers(s, k, items, until, provider, credential)
    requires var t := Next(s, a); forall i :: |s.log| <= i < |t.log| ==> !Ends(t.log[i], k)
    ensures s.log <= Next(s, a).log && Offers(Next(s, a), k, items, until, provider, credential)
  {
    var t := Next(s, a);
    if a.Clear? {
      assert t.log[|s.log|] == Clearing(a.only);
    } else if a.Publish? && |t.log| == |s.log| + 2 {
      assert t.log[|s.log|] == Publication(a.fetch, s.fetches[a.fetch].key);
    }
  }

  lemma {:induction false} RunOffers(actions: seq<Action>, i: nat, k: nat, key: Key, items: seq<string>, until: nat,
                                     provider: nat, credential: nat)
    requires i <= k <= |actions| && Offers(Run(actions[..i]), key, items, until, provider, credential)
    requires forall x :: |Run(actions[..i]).log| <= x < |Run(actions[..k]).log| ==> !Ends(Run(actions[..k]).log[x], key)
    ensures Run(actions[..i]).log <= Run(actions[..k]).log
    ensures Offers(Run(actions[..k]), key, items, until, provider, credential)
    decreases k
  {
    if i < k {
      var s, t := Run(actions[..k - 1]), Run(actions[..k]);
      assert actions[..k][..k - 1] == actions[..k - 1];
      LogGrows(s, actions[k - 1]);
      hide Run, Next;
      assert forall x :: 0 <= x < |s.log| ==> t.log[x] == s.log[x];
      RunOffers(actions, i, k - 1, key, items, until, provider, credential);
      StepOffers(s, actions[k - 1], key, items, until, provider, credential);
    }
  }

  lemma LogGrows(s: Cache, a: Action)
    ensures s.log <= Next(s, a).log
  {}

  /** In any interleaving: what a fetch publishes is served for five minutes to every
      read with its revisions, until the key is cleared or published again. */
  lemma PublishedServes(actions: seq<Action>, i: nat, k: nat, at: nat)
    requires i < k <= |actions| && actions[i].Publish?
    requires var s, id := Run(actions[..i]), actions[i].fetch;
             && id in s.fetches && s.fetches[id].phase.Listed? && Holder(s.log, s.fetches[id].key) == Some(id)
             && var t := Run(actions[..k]);
             forall x :: |Run(actions[..i + 1]).log| <= x < |t.log| ==> !Ends(t.log[x], s.fetches[id].key)
    requires at < actions[i].now + 300
    ensures var f, t := Run(actions[..i]).fetches[actions[i].fetch], Run(actions[..k]);
            Next(t, Read(f.key, f.provider, f.credential, at)).log
            == t.log + [Serving(f.key, f.provider, f.credential, f.phase.items)]
  {
    var s, id := Run(actions[..i]), actions[i].fetch;
    var f := s.fetches[id];
    RunSound(actions[..i]);
    HoldsExactly(s, id);
    assert actions[..i + 1][..i] == actions[..i];
    var until := actions[i].now + TTL;
    assert Offers(Run(actions[..i + 1]), f.key, f.phase.items, until, f.provider, f.credential);
    hide Run;
    RunOffers(actions, i + 1, k, f.key, f.phase.items, until, f.provider, f.credential);
  }
}
