/** Admin sessions: creation, authentication with a compare-and-set refresh, and
    revocation (internal/adminauth/session.go, memory_store.go).  Times are in
    nanoseconds. */
module AdminSessions {
  import opened Basics

  const MINUTE: nat := 60_000_000_000

  datatype Session = Session(hash: string, user: string, generation: nat, createdAt: int, lastSeenAt: int,
                             absoluteExpiresAt: int, idleExpiresAt: int)

  datatype Settings = Settings(absoluteTTL: int, idleTimeout: int)

  /** What NewManager accepts. */
  predicate ValidSettings(cfg: Settings) {
    0 < cfg.idleTimeout <= cfg.absoluteTTL
  }

  function RefreshInterval(cfg: Settings): int {
    if cfg.idleTimeout / 4 < MINUTE then cfg.idleTimeout / 4 else MINUTE
  }

  function NewSession(cfg: Settings, hash: string, user: string, generation: nat, now: int): Session {
    Session(hash, user, generation, now, now, now + cfg.absoluteTTL, now + cfg.idleTimeout)
  }

  predicate Expired(s: Session, now: int) {
    now >= s.absoluteExpiresAt || now >= s.idleExpiresAt
  }

  function Refreshed(cfg: Settings, s: Session, now: int): Session {
    s.(lastSeenAt := now,
    idleExpiresAt := if now + cfg.idleTimeout > s.absoluteExpiresAt then s.absoluteExpiresAt else now + cfg.idleTimeout)
  }

  /** What Authenticate does with the session it read and the user's present
      generation; None when the user cannot be read. */
  datatype Verdict = Drop | Accept | Refresh(replacement: Session)

  function Judge(cfg: Settings, s: Session, now: int, generation: Option<nat>): Verdict {
    if Expired(s, now) || generation != Some(s.generation) then Drop
    else if now - s.lastSeenAt < RefreshInterval(cfg) then Accept
    else Refresh(Refreshed(cfg, s, now))
  }

  /** A live session is written again exactly if it was not seen within the last
      minute or within a quarter of the idle timeout, and then idles out one idle
      timeout from now, but never past its absolute expiry. */
  lemma RefreshedExactly(cfg: Settings, s: Session, now: int)
    requires ValidSettings(cfg) && !Expired(s, now) && s.lastSeenAt <= now
    ensures var v, unseen := Judge(cfg, s, now, Some(s.generation)), now - s.lastSeenAt;
            && (v.Accept? <==> unseen < 60 * 1_000_000_000 && 4 * (unseen + 1) <= cfg.idleTimeout)
            && (!v.Accept? ==>
                  && v.Refresh? && v.replacement.lastSeenAt == now
                  && v.replacement.idleExpiresAt <= now + cfg.idleTimeout
                  && v.replacement.idleExpiresAt <= s.absoluteExpiresAt
                  && (|| v.replacement.idleExpiresAt == now + cfg.idleTimeout
                      || v.replacement.idleExpiresAt == s.absoluteExpiresAt))
  {}

  // ---------------------------------------------------------------------------
  // The store and one undisturbed call

  class MemoryStore {
    var sessions: map<string, Session>

    constructor ()
      ensures sessions == map[]
    {
      sessions := map[];
    }

    method Put(s: Session)
      modifies this
      ensures sessions == old(sessions)[s.hash := s]
    {
      sessions := sessions[s.hash := s];
    }

    method Delete(hash: string)
      modifies this
      ensures sessions == old(sessions) - {hash}
    {
      sessions := sessions - {hash};
    }

    /** RefreshAdminSession: only what is still there, unchanged and unexpired. */
    method Swap(original: Session, replacement: Session, now: int) returns (valid: bool)
      modifies this
      ensures valid <==> Swappable(old(sessions), original, now)
      ensures sessions == if valid then old(sessions)[replacement.hash := replacement] else old(sessions)
    {
      if !Swappable(sessions, original, now) {
        return false;
      }
      sessions := sessions[replacement.hash := replacement];
      return true;
    }
  }

  predicate Swappable(sessions: map<string, Session>, original: Session, now: int) {
    original.hash in sessions && sessions[original.hash] == original && !Expired(original, now)
  }

  /** Authenticate with nothing else running. */
  function Authenticated(cfg: Settings, sessions: map<string, Session>, hash: string, now: int, generation: Option<nat>)
    : (map<string, Session>, Option<Session>)
  {
    if hash !in sessions then (sessions, None)
    else
      var s := sessions[hash];
      match Judge(cfg, s, now, generation)
      case Drop => (sessions - {hash}, None)
      case Accept => (sessions, Some(s))
      case Refresh(r) => (sessions[hash := r], Some(r))
  }

  /** The same session, seen recently: identity, creation and absolute expiry
      stay, and a new idle expiry is never past the absolute one. */
  predicate Extends(cfg: Settings, before: Session, after: Session, now: int) {
    && after == before.(lastSeenAt := after.lastSeenAt, idleExpiresAt := after.idleExpiresAt)
    && (after == before || (after.lastSeenAt == now && after.idleExpiresAt <= after.absoluteExpiresAt))
    && (after.lastSeenAt == now || now - after.lastSeenAt < RefreshInterval(cfg))
  }

  method Authenticate(cfg: Settings, store: MemoryStore, hash: string, now: int, generation: Option<nat>)
    returns (r: Option<Session>)
    requires forall h :: h in store.sessions ==> store.sessions[h].hash == h
    modifies store
    ensures (store.sessions, r) == Authenticated(cfg, old(store.sessions), hash, now, generation)
    ensures r.Some? <==> && hash in old(store.sessions) && !Expired(old(store.sessions)[hash], now)
                         && generation == Some(old(store.sessions)[hash].generation)
    ensures r.Some? ==> hash in store.sessions && r.value == store.sessions[hash]
    ensures r.Some? ==> Extends(cfg, old(store.sessions)[hash], r.value, now)
    ensures r.None? ==> hash !in store.sessions
    ensures store.sessions - {hash} == old(store.sessions) - {hash}
  {
    if hash !in store.sessions {
      return None;
    }
    var session := store.sessions[hash];
    if Expired(session, now) {
      store.Delete(hash);
      return None;
    }
    if generation != Some(session.generation) {
      store.Delete(hash);
      return None;
    }
    if now - session.lastSeenAt < RefreshInterval(cfg) {
      return Some(session);
    }
    var replacement := Refreshed(cfg, session, now);
    var valid := store.Swap(session, replacement, now);
    r := if valid then Some(replacement) else None;
  }

  // ---------------------------------------------------------------------------
  // A client that keeps calling

  /** The session after calls at these times, as long as all of them succeed. */
  function AfterCalls(cfg: Settings, s: Session, times: seq<int>): Option<Session> {
    if times == [] then Some(s)
    else
      var before := AfterCalls(cfg, s, times[..|times| - 1]);
      if before.None? then None
      else
        match Judge(cfg, before.value, times[|times| - 1], Some(s.generation))
        case Drop => None
        case Accept => before
        case Refresh(r) => Some(r)
  }

  function LastCall(s: Session, times: seq<int>): int {
    if times == [] then s.createdAt else times[|times| - 1]
  }

  /** Each call follows the previous one by no more than the idle timeout less
      the refresh interval, and all precede the absolute expiry. */
  ghost predicate Attentive(cfg: Settings, s: Session, times: seq<int>) {
    forall i :: 0 <= i < |times| ==>
                  var last := LastCall(s, times[..i]);
                  last <= times[i] <= last + cfg.idleTimeout - RefreshInterval(cfg)
                  && times[i] < s.absoluteExpiresAt
  }

  ghost predicate Fresh(cfg: Settings, s: Session, c: Session, last: int) {
    && c.generation == s.generation && s.createdAt <= c.lastSeenAt && c.absoluteExpiresAt == s.absoluteExpiresAt
    && c.lastSeenAt <= last
    && (last == c.lastSeenAt || last - c.lastSeenAt < RefreshInterval(cfg))
    && (c.idleExpiresAt == c.lastSeenAt + cfg.idleTimeout || c.idleExpiresAt == c.absoluteExpiresAt)
  }

  lemma AttentivePrefix(cfg: Settings, s: Session, times: seq<int>, n: nat)
    requires Attentive(cfg, s, times) && n <= |times|
    ensures Attentive(cfg, s, times[..n])
  {}

  /** The next call of an attentive client. */
  lemma FreshStep(cfg: Settings, s: Session, c: Session, last: int, t: int)
    requires ValidSettings(cfg) && (RefreshInterval(cfg) > 0 || cfg.idleTimeout == cfg.absoluteTTL)
    requires s.absoluteExpiresAt == s.createdAt + cfg.absoluteTTL && Fresh(cfg, s, c, last)
    requires last <= t <= last + cfg.idleTimeout - RefreshInterval(cfg) && t < s.absoluteExpiresAt
    ensures var v := Judge(cfg, c, t, Some(s.generation));
            !v.Drop? && Fresh(cfg, s, if v.Refresh? then v.replacement else c, t)
  {}

  lemma {:induction false} AttentiveFresh(cfg: Settings, s: Session, times: seq<int>)
    requires ValidSettings(cfg) && (RefreshInterval(cfg) > 0 || cfg.idleTimeout == cfg.absoluteTTL)
    requires s == NewSession(cfg, s.hash, s.user, s.generation, s.createdAt) && Attentive(cfg, s, times)
    ensures AfterCalls(cfg, s, times).Some? && Fresh(cfg, s, AfterCalls(cfg, s, times).value, LastCall(s, times))
  {
    hide RefreshInterval, Judge, Fresh;
    if times != [] {
      var n := |times| - 1;
      AttentivePrefix(cfg, s, times, n);
      AttentiveFresh(cfg, s, times[..n]);
      FreshStep(cfg, s, AfterCalls(cfg, s, times[..n]).value, LastCall(s, times[..n]), times[n]);
    } else {
      NewIsFresh(cfg, s);
    }
  }

  lemma NewIsFresh(cfg: Settings, s: Session)
    requires s == NewSession(cfg, s.hash, s.user, s.generation, s.createdAt)
    ensures Fresh(cfg, s, s, s.createdAt)
  {}

  /** The store after undisturbed calls of one client at these times. */
  function AfterServing(cfg: Settings, sessions: map<string, Session>, hash: string, generation: nat, times: seq<int>)
    : map<string, Session>
  {
    if times == [] then sessions
    else
      var n := |times| - 1;
      Authenticated(cfg, AfterServing(cfg, sessions, hash, generation, times[..n]), hash, times[n], Some(generation)).0
  }

  function Stored(sessions: map<string, Session>, hash: string, s: Option<Session>): map<string, Session> {
    if s.Some? then sessions[hash := s.value] else sessions - {hash}
  }

  /** Authenticate called again and again is AfterCalls on the stored session. */
  lemma {:induction false} ServingIsCalls(cfg: Settings, sessions: map<string, Session>, hash: string, times: seq<int>)
    requires hash in sessions
    ensures AfterServing(cfg, sessions, hash, sessions[hash].generation, times)
         == Stored(sessions, hash, AfterCalls(cfg, sessions[hash], times))
  {
    var s := sessions[hash];
    if times != [] {
      var n := |times| - 1;
      ServingIsCalls(cfg, sessions, hash, times[..n]);
      var c := AfterCalls(cfg, s, times[..n]);
      if c.Some? {
        assert sessions[hash := c.value] - {hash} == sessions - {hash};
      }
    } else {
      assert sessions[hash := s] == sessions;
    }
  }

  /** Such a client never idles out before the absolute expiry. */
  lemma NeverIdlesOut(cfg: Settings, sessions: map<string, Session>, s: Session, times: seq<int>)
    requires ValidSettings(cfg) && (RefreshInterval(cfg) > 0 || cfg.idleTimeout == cfg.absoluteTTL)
    requires s == NewSession(cfg, s.hash, s.user, s.generation, s.createdAt) && Attentive(cfg, s, times)
    ensures AfterCalls(cfg, s, times).Some?
    ensures s.hash in AfterServing(cfg, sessions[s.hash := s], s.hash, s.generation, times)
  {
    AttentiveFresh(cfg, s, times);
    ServingIsCalls(cfg, sessions[s.hash := s], s.hash, times);
  }

  /** Otherwise, with an idle timeout below four nanoseconds and below the
      absolute one, a call exactly one idle timeout later is refused. */
  lemma TinyTimeoutIdlesOut(cfg: Settings, hash: string, user: string, generation: nat, now: int)
    requires ValidSettings(cfg) && RefreshInterval(cfg) == 0 && cfg.idleTimeout < cfg.absoluteTTL
    ensures var s, times := NewSession(cfg, hash, user, generation, now), [now + cfg.idleTimeout];
            Attentive(cfg, s, times) && AfterCalls(cfg, s, times).None?
  {}

  // ---------------------------------------------------------------------------
  // Racing calls

  datatype Phase = Begun | Got(session: Session) | Swapping(original: Session, replacement: Session) | Over

  /** One Authenticate under way. */
  datatype Call = Call(hash: string, now: int, phase: Phase)

  datatype Event =
    | Made(hash: string, at: int)
    | Gone(hash: string)
    | Entered(call: nat, hash: string)
    | Passed(call: nat, hash: string, at: int)

  datatype Desk = Desk(sessions: map<string, Session>, calls: map<nat, Call>, log: seq<Event>)

  /** Each action is one section under the store's lock; Create draws a token
      nobody had before. */
  datatype Action =
    | Create(hash: string, user: string, generation: nat, at: int)
    | Revoke(hash: string)
    | Enter(call: nat, hash: string, at: int)
    | Look(call: nat)
    | Decide(call: nat, present: Option<nat>)
    | Exchange(call: nat)

  function Moved(d: Desk, id: nat, phase: Phase): map<nat, Call>
    requires id in d.calls
  {
    d.calls[id := d.calls[id].(phase := phase)]
  }

  function Deciding(cfg: Settings, d: Desk, id: nat, generation: Option<nat>): Desk
    requires id in d.calls && d.calls[id].phase.Got?
  {
    var c := d.calls[id];
    match Judge(cfg, c.phase.session, c.now, generation)
    case Drop => Desk(d.sessions - {c.hash}, Moved(d, id, Over), d.log)
    case Accept => Desk(d.sessions, Moved(d, id, Over), d.log + [Passed(id, c.hash, c.now)])
    case Refresh(r) => d.(calls := Moved(d, id, Swapping(c.phase.session, r)))
  }

  function Exchanging(d: Desk, id: nat): Desk
    requires id in d.calls && d.calls[id].phase.Swapping?
  {
    var c := d.calls[id];
    if Swappable(d.sessions, c.phase.original, c.now) then
      Desk(d.sessions[c.phase.replacement.hash := c.phase.replacement], Moved(d, id, Over),
           d.log + [Passed(id, c.hash, c.now)])
    else d.(calls := Moved(d, id, Over))
  }

  function Next(cfg: Settings, d: Desk, a: Action): Desk {
    match a
    case Create(hash, user, generation, at) =>
      if exists i :: 0 <= i < |d.log| && d.log[i].hash == hash then d
      else Desk(d.sessions[hash := NewSession(cfg, hash, user, generation, at)], d.calls, d.log + [Made(hash, at)])
    case Revoke(hash) => Desk(d.sessions - {hash}, d.calls, d.log + [Gone(hash)])
    case Enter(id, hash, at) =>
      if id in d.calls then d else Desk(d.sessions, d.calls[id := Call(hash, at, Begun)], d.log + [Entered(id, hash)])
    case Look(id) =>
      if id !in d.calls || !d.calls[id].phase.Begun? then d
      else if d.calls[id].hash in d.sessions then d.(calls := Moved(d, id, Got(d.sessions[d.calls[id].hash])))
      else d.(calls := Moved(d, id, Over))
    case Decide(id, generation) =>
      if id !in d.calls || !d.calls[id].phase.Got? then d else Deciding(cfg, d, id, generation)
    case Exchange(id) =>
      if id !in d.calls || !d.calls[id].phase.Swapping? then d else Exchanging(d, id)
  }

  function Run(cfg: Settings, actions: seq<Action>): Desk {
    if actions == [] then Desk(map[], map[], [])
    else Next(cfg, Run(cfg, actions[..|actions| - 1]), actions[|actions| - 1])
  }

  /** A call that nothing interrupts is one Authenticate. */
  lemma UndisturbedCall(cfg: Settings, d: Desk, id: nat, hash: string, at: int, present: Option<nat>)
    requires id !in d.calls && (hash in d.sessions ==> d.sessions[hash].hash == hash)
    ensures var d1 := Next(cfg, Next(cfg, d, Enter(id, hash, at)), Look(id));
            var d2 := Next(cfg, Next(cfg, d1, Decide(id, present)), Exchange(id));
            var r := Authenticated(cfg, d.sessions, hash, at, present);
            && d2.sessions == r.0
            && d2.log == d.log + [Entered(id, hash)] + if r.1.Some? then [Passed(id, hash, at)] else []
  {}

  // ---------------------------------------------------------------------------
  // What every step keeps

  ghost predicate MadeAt(log: seq<Event>, hash: string, at: int) {
    exists i :: 0 <= i < |log| && log[i] == Made(hash, at)
  }

  /** The call entered, and no revocation of the hash came before it did. */
  ghost predicate InTime(log: seq<Event>, id: nat, hash: string) {
    && Entered(id, hash) in log
    && forall i, k :: 0 <= i < k < |log| && log[i] == Gone(hash) ==> log[k] != Entered(id, hash)
  }

  ghost predicate SessionOk(cfg: Settings, log: seq<Event>, hash: string, s: Session) {
    s.hash == hash && s.absoluteExpiresAt == s.createdAt + cfg.absoluteTTL && MadeAt(log, hash, s.createdAt)
  }

  ghost predicate CallOk(cfg: Settings, log: seq<Event>, id: nat, c: Call) {
    match c.phase
    case Begun => Entered(id, c.hash) in log
    case Got(s) => InTime(log, id, c.hash) && SessionOk(cfg, log, c.hash, s)
    case Swapping(o, r) => InTime(log, id, c.hash) && SessionOk(cfg, log, c.hash, o) && SessionOk(cfg, log, c.hash, r)
    case Over => true
  }

  /** A call passes in time, and before the session's absolute expiry. */
  ghost predicate PassOk(cfg: Settings, before: seq<Event>, e: Event) {
    e.Passed? ==>
      && InTime(before, e.call, e.hash)
      && exists t: int :: MadeAt(before, e.hash, t) && e.at < t + cfg.absoluteTTL
  }

  ghost predicate PassOkAt(cfg: Settings, log: seq<Event>, i: nat)
    requires i < |log|
  {
    PassOk(cfg, log[..i], log[i])
  }

  ghost predicate AllPassed(cfg: Settings, log: seq<Event>) {
    forall i :: 0 <= i < |log| ==> PassOkAt(cfg, log, i)
  }

  ghost predicate SessionsOk(cfg: Settings, sessions: map<string, Session>, log: seq<Event>) {
    forall h :: h in sessions ==> SessionOk(cfg, log, h, sessions[h]) && Gone(h) !in log
  }

  ghost predicate CallsOk(cfg: Settings, calls: map<nat, Call>, log: seq<Event>) {
    forall id :: id in calls ==> CallOk(cfg, log, id, calls[id])
  }

  ghost predicate Sound(cfg: Settings, d: Desk) {
    && SessionsOk(cfg, d.sessions, d.log) && CallsOk(cfg, d.calls, d.log) && AllPassed(cfg, d.log)
    && (forall i :: 0 <= i < |d.log| && d.log[i].Entered? ==> d.log[i].call in d.calls)
  }

  /** An event that is neither a second entry of the call nor anything it must
      come after. */
  lemma InTimeSnoc(log: seq<Event>, e: Event, id: nat, hash: string)
    requires InTime(log, id, hash) && e != Entered(id, hash)
    ensures InTime(log + [e], id, hash)
  {}

  lemma MadeSnoc(log: seq<Event>, e: Event, hash: string, at: int)
    ensures MadeAt(log, hash, at) ==> MadeAt(log + [e], hash, at)
    ensures e == Made(hash, at) ==> MadeAt(log + [e], hash, at)
  {
    if MadeAt(log, hash, at) {
      var i :| 0 <= i < |log| && log[i] == Made(hash, at);
      assert (log + [e])[i] == log[i];
    }
    assert (log + [e])[|log|] == e;
  }

  lemma CallSnoc(cfg: Settings, log: seq<Event>, e: Event, id: nat, c: Call)
    requires CallOk(cfg, log, id, c) && e != Entered(id, c.hash)
    ensures CallOk(cfg, log + [e], id, c)
  {
    match c.phase
    case Begun =>
    case Got(s) =>
      InTimeSnoc(log, e, id, c.hash);
      MadeSnoc(log, e, c.hash, s.createdAt);
    case Swapping(o, r) =>
      InTimeSnoc(log, e, id, c.hash);
      MadeSnoc(log, e, c.hash, o.createdAt);
      MadeSnoc(log, e, c.hash, r.createdAt);
    case Over =>
  }

  lemma PassSnoc(cfg: Settings, log: seq<Event>, e: Event)
    requires AllPassed(cfg, log) && PassOk(cfg, log, e)
    ensures AllPassed(cfg, log + [e])
  {
    var all := log + [e];
    forall i | 0 <= i < |all| ensures PassOkAt(cfg, all, i) {
      if i < |log| {
        assert all[..i] == log[..i] && all[i] == log[i] && PassOkAt(cfg, log, i);
      } else {
        assert all[..i] == log;
      }
    }
  }

  /** One more event, with the sessions it leaves. */
  lemma Noted(cfg: Settings, d: Desk, e: Event, sessions: map<string, Session>)
    requires Sound(cfg, d) && PassOk(cfg, d.log, e) && (e.Entered? ==> e.call !in d.calls)
    requires forall h :: h in sessions ==>
                           e != Gone(h) && (h in d.sessions || Gone(h) !in d.log)
                           && SessionOk(cfg, d.log + [e], h, sessions[h])
    ensures SessionsOk(cfg, sessions, d.log + [e]) && CallsOk(cfg, d.calls, d.log + [e]) && AllPassed(cfg, d.log + [e])
  {
    hide PassOkAt, PassOk;
    PassSnoc(cfg, d.log, e);
    forall id | id in d.calls ensures CallOk(cfg, d.log + [e], id, d.calls[id]) {
      CallSnoc(cfg, d.log, e, id, d.calls[id]);
    }
  }

  lemma SessionSnoc(cfg: Settings, log: seq<Event>, e: Event, hash: string, s: Session)
    requires SessionOk(cfg, log, hash, s)
    ensures SessionOk(cfg, log + [e], hash, s)
  {
    MadeSnoc(log, e, hash, s.createdAt);
  }

  lemma CreateKeeps(cfg: Settings, d: Desk, a: Action)
    requires Sound(cfg, d) && a.Create?
    ensures Sound(cfg, Next(cfg, d, a))
  {
    hide AllPassed;
    var t, e := Next(cfg, d, a), Made(a.hash, a.at);
    if !(exists i :: 0 <= i < |d.log| && d.log[i].hash == a.hash) {
      forall h | h in t.sessions
        ensures (h in d.sessions || Gone(h) !in d.log) && SessionOk(cfg, d.log + [e], h, t.sessions[h])
      {
        if h == a.hash {
          MadeSnoc(d.log, e, h, a.at);
        } else {
          SessionSnoc(cfg, d.log, e, h, d.sessions[h]);
        }
      }
      Noted(cfg, d, e, t.sessions);
    }
  }

  lemma RevokeKeeps(cfg: Settings, d: Desk, a: Action)
    requires Sound(cfg, d) && a.Revoke?
    ensures Sound(cfg, Next(cfg, d, a))
  {
    hide AllPassed;
    var t, e := Next(cfg, d, a), Gone(a.hash);
    forall h | h in t.sessions ensures SessionOk(cfg, d.log + [e], h, t.sessions[h]) {
      SessionSnoc(cfg, d.log, e, h, d.sessions[h]);
    }
    Noted(cfg, d, e, t.sessions);
  }

  lemma EnterKeeps(cfg: Settings, d: Desk, a: Action)
    requires Sound(cfg, d) && a.Enter?
    ensures Sound(cfg, Next(cfg, d, a))
  {
    hide AllPassed;
    var t, e := Next(cfg, d, a), Entered(a.call, a.hash);
    if a.call !in d.calls {
      forall h | h in t.sessions ensures SessionOk(cfg, d.log + [e], h, t.sessions[h]) {
        SessionSnoc(cfg, d.log, e, h, d.sessions[h]);
      }
      Noted(cfg, d, e, t.sessions);
      assert t.log == d.log + [e] && t.log[|d.log|] == e;
    }
  }

  /** The session was there to be read: nothing had revoked it. */
  lemma LookKeeps(cfg: Settings, d: Desk, a: Action)
    requires Sound(cfg, d) && a.Look?
    ensures Sound(cfg, Next(cfg, d, a))
  {}

  /** A call that passes has a session made long enough ago and entered in time. */
  lemma Passing(cfg: Settings, d: Desk, id: nat, s: Session)
    requires Sound(cfg, d) && id in d.calls && InTime(d.log, id, d.calls[id].hash)
    requires SessionOk(cfg, d.log, d.calls[id].hash, s) && d.calls[id].now < s.absoluteExpiresAt
    ensures var e := Passed(id, d.calls[id].hash, d.calls[id].now);
            && PassOk(cfg, d.log, e)
            && forall h, x :: SessionOk(cfg, d.log, h, x) ==> SessionOk(cfg, d.log + [e], h, x)
  {
    var e := Passed(id, d.calls[id].hash, d.calls[id].now);
    forall h, x | SessionOk(cfg, d.log, h, x) ensures SessionOk(cfg, d.log + [e], h, x) {
      SessionSnoc(cfg, d.log, e, h, x);
    }
  }

  lemma DecideKeeps(cfg: Settings, d: Desk, a: Action)
    requires Sound(cfg, d) && a.Decide?
    ensures Sound(cfg, Next(cfg, d, a))
  {
    hide AllPassed;
    if a.call in d.calls && d.calls[a.call].phase.Got? {
      var id, c := a.call, d.calls[a.call];
      assert CallOk(cfg, d.log, id, c);
      if Judge(cfg, c.phase.session, c.now, a.present).Accept? {
        Passing(cfg, d, id, c.phase.session);
        Noted(cfg, d, Passed(id, c.hash, c.now), d.sessions);
      }
    }
  }

  lemma ExchangeKeeps(cfg: Settings, d: Desk, a: Action)
    requires Sound(cfg, d) && a.Exchange?
    ensures Sound(cfg, Next(cfg, d, a))
  {
    hide AllPassed;
    if a.call in d.calls && d.calls[a.call].phase.Swapping? {
      var id, c := a.call, d.calls[a.call];
      assert CallOk(cfg, d.log, id, c);
      if Swappable(d.sessions, c.phase.original, c.now) {
        Passing(cfg, d, id, c.phase.original);
        Noted(cfg, d, Passed(id, c.hash, c.now), d.sessions[c.phase.replacement.hash := c.phase.replacement]);
      }
    }
  }

  lemma {:induction false} RunSound(cfg: Settings, actions: seq<Action>)
    ensures Sound(cfg, Run(cfg, actions))
  {
    if actions != [] {
      hide Sound;
      var n := |actions| - 1;
      RunSound(cfg, actions[..n]);
      var d := Run(cfg, actions[..n]);
      match actions[n]
      case Create(_, _, _, _) => CreateKeeps(cfg, d, actions[n]);
      case Revoke(_) => RevokeKeeps(cfg, d, actions[n]);
      case Enter(_, _, _) => EnterKeeps(cfg, d, actions[n]);
      case Look(_) => LookKeeps(cfg, d, actions[n]);
      case Decide(_, _) => DecideKeeps(cfg, d, actions[n]);
      case Exchange(_) => ExchangeKeeps(cfg, d, actions[n]);
    }
  }

  /** An Authenticate that entered after a revocation of its session never
      passes, whatever refreshes race with it. */
  lemma RevocationHolds(cfg: Settings, actions: seq<Action>, i: nat, j: nat, k: nat, id: nat, hash: string, at: int)
    requires var log := Run(cfg, actions).log;
             i < j < k < |log| && log[i] == Gone(hash) && log[j] == Entered(id, hash)
    ensures Run(cfg, actions).log[k] != Passed(id, hash, at)
  {
    RunSound(cfg, actions);
    var log := Run(cfg, actions).log;
    assert PassOkAt(cfg, log, k);
    assert log[..k][i] == log[i] && log[..k][j] == log[j];
  }

  /** Whenever a call passes, its session was made less than the absolute
      lifetime before. */
  lemma NoSessionOutlives(cfg: Settings, actions: seq<Action>, k: nat)
    requires k < |Run(cfg, actions).log| && Run(cfg, actions).log[k].Passed?
    ensures var log := Run(cfg, actions).log;
            exists i :: 0 <= i < k && log[i].Made? && log[i].hash == log[k].hash
                        && log[k].at < log[i].at + cfg.absoluteTTL
  {
    RunSound(cfg, actions);
    var log := Run(cfg, actions).log;
    assert PassOkAt(cfg, log, k);
    var t: int :| MadeAt(log[..k], log[k].hash, t) && log[k].at < t + cfg.absoluteTTL;
    var i :| 0 <= i < k && log[..k][i] == Made(log[k].hash, t);
    assert log[i] == Made(log[k].hash, t);
  }
}
