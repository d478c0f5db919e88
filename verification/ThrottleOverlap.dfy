/** Login requests that overlap: each takes the lock twice, and others can come in between (app/auth.py). */
module ThrottleOverlap {
  import opened Basics
  import opened LoginThrottle

  // A request between its two sections, with the list it took away from the first one.
  datatype Pending = Pending(ip: string, now: Moment, recent: seq<Moment>)
  // A check that failed.
  datatype Failure = Failure(ip: string, at: Moment)

  datatype State = State(failures: Table, pending: map<nat, Pending>, log: seq<Failure>)

  // The sections of request `id`.  Requests may read the clock and take the lock in any order.
  datatype Event = First(id: nat, ip: string, now: Moment) | Fail(id: nat) | Succeed(id: nat)

  predicate Refuses(s: State, e: Event) {
    e.First? && |Recent(FailuresOf(s.failures, e.ip), e.now)| >= MAX_FAILURES
  }

  function Next(s: State, e: Event): State {
    match e
    case First(id, ip, now) =>
      var recent, swept := Recent(FailuresOf(s.failures, ip), now), Swept(s.failures, now);
      if Refuses(s, e) then s.(failures := swept[ip := recent])
      else s.(failures := swept, pending := s.pending[id := Pending(ip, now, recent)])
    case Fail(id) =>
      if id !in s.pending then s
      else
        var p := s.pending[id];
        State(s.failures[p.ip := p.recent + [p.now]], s.pending - {id}, s.log + [Failure(p.ip, p.now)])
    case Succeed(id) =>
      if id !in s.pending then s
      else s.(failures := s.failures - {s.pending[id].ip}, pending := s.pending - {id})
  }

  /** The events are the locked sections of the program: a request that enters either of them leaves the
      table as the model says. */
  method EnterSection(throttle: Throttle, s: State, e: Event)
    requires throttle.failures == s.failures
    modifies throttle`failures
    ensures throttle.failures == Next(s, e).failures
  {
    match e {
      case First(id, ip, now) =>
        var recent, throttled := throttle.Admit(ip, now);
      case Fail(id) =>
        if id in s.pending {
          throttle.RecordFailure(s.pending[id].ip, s.pending[id].recent, s.pending[id].now);
        }
      case Succeed(id) =>
        if id in s.pending {
          throttle.ClearSlate(s.pending[id].ip);
        }
    }
  }

  function Runs(es: seq<Event>): State {
    if es == [] then State(map[], map[], []) else Next(Runs(es[..|es| - 1]), es[|es| - 1])
  }

  // The times of all failed checks of a client.
  function TimesOf(log: seq<Failure>, ip: string): seq<Moment> {
    if log == [] then []
    else TimesOf(log[..|log| - 1], ip) + (if log[|log| - 1].ip == ip then [log[|log| - 1].at] else [])
  }

  // `ts` counts each failed check of the client at most once.
  predicate CountsOnce(ts: seq<Moment>, log: seq<Failure>, ip: string) {
    multiset(ts) <= multiset(TimesOf(log, ip))
  }

  ghost predicate NeverOvercounts(s: State) {
    && (forall ip :: ip in s.failures ==> CountsOnce(s.failures[ip], s.log, ip))
    && (forall id :: id in s.pending ==> CountsOnce(s.pending[id].recent, s.log, s.pending[id].ip))
  }

  lemma {:induction false} RecentIsPart(ts: seq<Moment>, now: Moment)
    ensures multiset(Recent(ts, now)) <= multiset(ts)
  {
    if ts != [] {
      RecentIsPart(ts[..|ts| - 1], now);
      assert ts == ts[..|ts| - 1] + [ts[|ts| - 1]];
    }
  }

  lemma RecentCountsOnce(ts: seq<Moment>, now: Moment, log: seq<Failure>, ip: string)
    requires CountsOnce(ts, log, ip)
    ensures CountsOnce(Recent(ts, now), log, ip)
  {
    RecentIsPart(ts, now);
  }

  lemma LogGrows(ts: seq<Moment>, log: seq<Failure>, ip: string, f: Failure)
    requires CountsOnce(ts, log, ip)
    ensures CountsOnce(ts, log + [f], ip)
    ensures f.ip == ip ==> CountsOnce(ts + [f.at], log + [f], ip)
  {
    assert (log + [f])[..|log + [f]| - 1] == log;
  }

  lemma NextNeverOvercounts(s: State, e: Event)
    requires NeverOvercounts(s)
    ensures NeverOvercounts(Next(s, e))
  {
    hide CountsOnce, Recent;
    match e
    case First(id, ip, now) =>
      NothingCounted(s.log, ip);
      RecentCountsOnce(FailuresOf(s.failures, ip), now, s.log, ip);
    case Fail(id) =>
      if id in s.pending {
        var p := s.pending[id];
        var f := Failure(p.ip, p.now);
        LogGrows(p.recent, s.log, p.ip, f);
        forall ip | ip in s.failures ensures CountsOnce(s.failures[ip], s.log + [f], ip) {
          LogGrows(s.failures[ip], s.log, ip, f);
        }
        forall k | k in s.pending ensures CountsOnce(s.pending[k].recent, s.log + [f], s.pending[k].ip) {
          LogGrows(s.pending[k].recent, s.log, s.pending[k].ip, f);
        }
      }
    case Succeed(id) =>
  }

  lemma NothingCounted(log: seq<Failure>, ip: string)
    ensures CountsOnce([], log, ip)
  {
  }

  lemma {:induction false} RunsNeverOvercount(es: seq<Event>)
    ensures NeverOvercounts(Runs(es))
  {
    if es != [] {
      RunsNeverOvercount(es[..|es| - 1]);
      NextNeverOvercounts(Runs(es[..|es| - 1]), es[|es| - 1]);
    }
  }

  lemma MoreRecent(a: seq<Moment>, b: seq<Moment>, now: Moment)
    requires multiset(a) <= multiset(b)
    ensures |Recent(a, now)| <= |Recent(b, now)|
  {
    RecentBag(a, now);
    RecentBag(b, now);
    var x, y := multiset(Recent(a, now)), multiset(Recent(b, now));
    assert forall t :: multiset(a)[t] <= multiset(b)[t];
    assert forall t :: x[t] <= y[t];
    assert y == x + (y - x);
  }

  // How many of each: the recent ones all, the others none.
  lemma {:induction false} RecentCount(ts: seq<Moment>, now: Moment, t: Moment)
    ensures multiset(Recent(ts, now))[t] == if now - t < WINDOW_SECONDS then multiset(ts)[t] else 0
  {
    if ts != [] {
      RecentCount(ts[..|ts| - 1], now, t);
      assert ts == ts[..|ts| - 1] + [ts[|ts| - 1]];
    }
  }

  lemma RecentBag(ts: seq<Moment>, now: Moment)
    ensures forall t :: multiset(Recent(ts, now))[t] == if now - t < WINDOW_SECONDS then multiset(ts)[t] else 0
  {
    forall t ensures multiset(Recent(ts, now))[t] == if now - t < WINDOW_SECONDS then multiset(ts)[t] else 0 {
      RecentCount(ts, now, t);
    }
  }

  /** However requests overlap, one is refused only when the client really failed ten checks within the
      window. */
  lemma RefusalIsDeserved(es: seq<Event>, e: Event)
    requires Refuses(Runs(es), e)
    ensures |Recent(TimesOf(Runs(es).log, e.ip), e.now)| >= 10
  {
    RunsNeverOvercount(es);
    var s := Runs(es);
    NothingCounted(s.log, e.ip);
    MoreRecent(FailuresOf(s.failures, e.ip), TimesOf(s.log, e.ip), e.now);
  }

  // ---- clients whose requests do not overlap ----

  // Every failed check of a client since its last success, whichever list it was stored in.
  function NextHistory(s: State, h: Table, e: Event): Table {
    match e
    case First(_, _, _) => h
    case Fail(id) =>
      if id in s.pending then h[s.pending[id].ip := FailuresOf(h, s.pending[id].ip) + [s.pending[id].now]] else h
    case Succeed(id) => if id in s.pending then h - {s.pending[id].ip} else h
  }

  function SinceSuccess(es: seq<Event>): Table {
    if es == [] then map[]
    else NextHistory(Runs(es[..|es| - 1]), SinceSuccess(es[..|es| - 1]), es[|es| - 1])
  }

  // A request that starts finds no other of its client under way.
  ghost predicate Alone(s: State, e: Event) {
    e.First? ==> e.id !in s.pending && forall id :: id in s.pending ==> s.pending[id].ip != e.ip
  }

  ghost predicate NoOverlap(es: seq<Event>) {
    forall i :: 0 <= i < |es| ==> Alone(Runs(es[..i]), es[i])
  }

  // Requests take the lock in the order in which they read the clock.
  predicate InClockOrder(es: seq<Event>) {
    forall i, j :: 0 <= i < j < |es| && es[i].First? && es[j].First? ==> es[i].now <= es[j].now
  }

  predicate SeenBy(es: seq<Event>, clock: Moment) {
    forall i :: 0 <= i < |es| && es[i].First? ==> es[i].now <= clock
  }

  // From `clock` on, the table and every list under way count the failures since the last success.
  ghost predicate Exact(s: State, h: Table, clock: Moment) {
    && Refines(s.failures, h, clock)
    && (forall id :: id in s.pending ==> Agree(s.pending[id].recent, FailuresOf(h, s.pending[id].ip), clock))
    && (forall i, j :: i in s.pending && j in s.pending && s.pending[i].ip == s.pending[j].ip ==> i == j)
  }

  lemma RefinesLater(table: Table, history: Table, clock: Moment, later: Moment)
    requires Refines(table, history, clock) && clock <= later
    ensures Refines(table, history, later)
  {
    forall ip ensures Agree(FailuresOf(table, ip), FailuresOf(history, ip), later) {
      assert Agree(FailuresOf(table, ip), FailuresOf(history, ip), clock);
    }
  }

  lemma ExactLater(s: State, h: Table, clock: Moment, later: Moment)
    requires Exact(s, h, clock) && clock <= later
    ensures Exact(s, h, later)
  {
    RefinesLater(s.failures, h, clock, later);
  }

  lemma FirstStaysExact(s: State, h: Table, e: Event, clock: Moment)
    requires Exact(s, h, clock) && e.First? && Alone(s, e) && clock <= e.now
    ensures Exact(Next(s, e), h, e.now)
  {
    hide Recent, Swept, Agree, Refines;
    ExactLater(s, h, clock, e.now);
    SweepRefines(s.failures, h, clock, e.now, e.ip);
  }

  lemma OtherAgrees(h: Table, h': Table, ip: string, k: string)
    requires k != ip && (h' == h - {ip} || (ip in h' && h' == h[ip := h'[ip]]))
    ensures FailuresOf(h', k) == FailuresOf(h, k)
  {
  }

  lemma SecondStaysExact(s: State, h: Table, e: Event, clock: Moment)
    requires Exact(s, h, clock) && !e.First?
    ensures Exact(Next(s, e), NextHistory(s, h, e), clock)
  {
    hide Recent, Agree, Refines;
    if e.id in s.pending {
      var p, h' := s.pending[e.id], NextHistory(s, h, e);
      if e.Fail? {
        FailureRefines(s.failures, h, clock, p.ip, p.recent, p.now);
      } else {
        SuccessRefines(s.failures, h, clock, p.ip);
      }
      forall k | k in s.pending && k != e.id ensures FailuresOf(h', s.pending[k].ip) == FailuresOf(h, s.pending[k].ip) {
        OtherAgrees(h, h', p.ip, s.pending[k].ip);
      }
    }
  }

  lemma AllButLast(es: seq<Event>, clock: Moment)
    requires es != [] && NoOverlap(es) && InClockOrder(es) && SeenBy(es, clock)
    ensures var front, e := es[..|es| - 1], es[|es| - 1];
      && NoOverlap(front) && InClockOrder(front) && SeenBy(front, if e.First? then e.now else clock)
      && Alone(Runs(front), e) && (e.First? ==> e.now <= clock)
  {
    var front, e := es[..|es| - 1], es[|es| - 1];
    hide Alone, Runs;
    forall i | 0 <= i < |front| ensures Alone(Runs(front[..i]), front[i]) {
      assert front[..i] == es[..i] && Alone(Runs(es[..i]), es[i]);
    }
  }

  lemma {:induction false} RunsStayExact(es: seq<Event>, clock: Moment)
    requires NoOverlap(es) && InClockOrder(es) && SeenBy(es, clock)
    ensures Exact(Runs(es), SinceSuccess(es), clock)
  {
    if es != [] {
      AllButLast(es, clock);
      var front, e := es[..|es| - 1], es[|es| - 1];
      hide Exact, Alone, Next, NextHistory, NoOverlap, InClockOrder, SeenBy;
      if e.First? {
        RunsStayExact(front, e.now);
        FirstStaysExact(Runs(front), SinceSuccess(front), e, e.now);
        FirstKeepsHistory(Runs(front), SinceSuccess(front), e);
        ExactLater(Runs(es), SinceSuccess(es), e.now, clock);
      } else {
        RunsStayExact(front, clock);
        SecondStaysExact(Runs(front), SinceSuccess(front), e, clock);
      }
    }
  }

  lemma FirstKeepsHistory(s: State, h: Table, e: Event)
    requires e.First?
    ensures NextHistory(s, h, e) == h
  {
  }

  /** Where no two requests of one client overlap -- requests of different clients may -- a request is
      refused exactly when its client failed ten times in the window since its last success. */
  lemma ApartMeansExact(es: seq<Event>, e: Event)
    requires e.First? && NoOverlap(es) && InClockOrder(es) && SeenBy(es, e.now)
    ensures Refuses(Runs(es), e) <==> |Recent(FailuresOf(SinceSuccess(es), e.ip), e.now)| >= 10
  {
    RunsStayExact(es, e.now);
    assert Agree(FailuresOf(Runs(es).failures, e.ip), FailuresOf(SinceSuccess(es), e.ip), e.now);
  }

  // ---- exactly when an overlap is harmless ----

  // What the client's other requests did to its list last.
  datatype Effect = Untouched | Cleared | Stored(at: Moment)

  function EffectOf(s: State, e: Event, ip: string, before: Effect): Effect {
    if e.First? || e.id !in s.pending || s.pending[e.id].ip != ip then before
    else if e.Fail? then Stored(s.pending[e.id].now)
    else Cleared
  }

  // ... during `es`, after the run `start`.
  function LastEffect(start: seq<Event>, es: seq<Event>, ip: string): Effect {
    if es == [] then Untouched
    else
      var front := es[..|es| - 1];
      EffectOf(Runs(start + front), es[|es| - 1], ip, LastEffect(start, front, ip))
  }

  /** Whether the effect still shows at `clock` to a request that took `taken` before it: the failure
      stored last is in the window, or a failure taken and since dropped is. */
  predicate StillFelt(effect: Effect, taken: seq<Moment>, clock: Moment) {
    match effect
    case Untouched => false
    case Cleared => Recent(taken, clock) != []
    case Stored(at) => clock - at < WINDOW_SECONDS || Recent(taken, clock) != []
  }

  // No two requests read the same time, and they take the lock in the order in which they read it.
  predicate InStrictOrder(es: seq<Event>) {
    forall i, j :: 0 <= i < j < |es| && es[i].First? && es[j].First? ==> es[i].now < es[j].now
  }

  predicate SeenBefore(es: seq<Event>, bound: Moment) {
    forall i :: 0 <= i < |es| && es[i].First? ==> es[i].now < bound
  }

  // Under that order a request's time is its own, and later than what it took.
  ghost predicate Dated(s: State, bound: Moment) {
    && (forall ip, x :: x in TimesOf(s.log, ip) ==> x < bound)
    && (forall k :: k in s.pending ==>
          s.pending[k].now < bound && s.pending[k].now !in TimesOf(s.log, s.pending[k].ip)
          && forall x :: x in s.pending[k].recent ==> x < s.pending[k].now)
    && (forall k, l :: k in s.pending && l in s.pending && k != l ==> s.pending[k].now != s.pending[l].now)
  }

  lemma CountedIsLogged(ts: seq<Moment>, log: seq<Failure>, ip: string, x: Moment)
    requires CountsOnce(ts, log, ip) && x in ts
    ensures x in TimesOf(log, ip)
  {
    assert multiset(ts)[x] > 0;
    assert multiset(TimesOf(log, ip))[x] > 0;
  }

  lemma RecentIsIn(ts: seq<Moment>, now: Moment, x: Moment)
    requires x in Recent(ts, now)
    ensures x in ts && now - x < WINDOW_SECONDS
  {
    FilterMembers(ts, InWindow(now), x);
  }

  lemma TakenIsEarlier(s: State, e: Event, x: Moment)
    requires e.First? && Dated(s, e.now) && NeverOvercounts(s) && x in Recent(FailuresOf(s.failures, e.ip), e.now)
    ensures x < e.now
  {
    RecentIsIn(FailuresOf(s.failures, e.ip), e.now, x);
    CountedIsLogged(s.failures[e.ip], s.log, e.ip, x);
  }

  lemma FirstStaysDated(s: State, e: Event, bound: Moment)
    requires e.First? && Dated(s, e.now) && NeverOvercounts(s) && e.now < bound
    ensures Dated(Next(s, e), bound)
  {
    hide Recent, Swept, TimesOf, NeverOvercounts, FailuresOf;
    forall x | x in Recent(FailuresOf(s.failures, e.ip), e.now) ensures x < e.now {
      TakenIsEarlier(s, e, x);
    }
  }

  lemma TimesSnoc(log: seq<Failure>, f: Failure, ip: string)
    ensures TimesOf(log + [f], ip) == TimesOf(log, ip) + (if f.ip == ip then [f.at] else [])
  {
    assert (log + [f])[..|log + [f]| - 1] == log;
  }

  lemma SecondStaysDated(s: State, e: Event, bound: Moment)
    requires !e.First? && Dated(s, bound)
    ensures Dated(Next(s, e), bound)
  {
    hide TimesOf;
    if e.Fail? && e.id in s.pending {
      var f := Failure(s.pending[e.id].ip, s.pending[e.id].now);
      forall ip ensures TimesOf(s.log + [f], ip) == TimesOf(s.log, ip) + (if f.ip == ip then [f.at] else []) {
        TimesSnoc(s.log, f, ip);
      }
    }
  }

  lemma {:induction false} RunsAreDated(es: seq<Event>, bound: Moment)
    requires InStrictOrder(es) && SeenBefore(es, bound)
    ensures Dated(Runs(es), bound)
  {
    if es != [] {
      var n := |es| - 1;
      hide Dated, Next;
      RunsNeverOvercount(es[..n]);
      if es[n].First? {
        RunsAreDated(es[..n], es[n].now);
        FirstStaysDated(Runs(es[..n]), es[n], bound);
      } else {
        RunsAreDated(es[..n], bound);
        SecondStaysDated(Runs(es[..n]), es[n], bound);
      }
    } else {
      assert Runs(es).pending == map[] && forall ip :: TimesOf([], ip) == [];
    }
  }

  // How the client's list in the table looks to a request that took `taken`, after that effect.
  ghost predicate Tracks(effect: Effect, taken: seq<Moment>, table: seq<Moment>, clock: Moment) {
    match effect
    case Untouched => Agree(taken, table, clock)
    case Cleared => Agree([], table, clock)
    case Stored(at) =>
      at !in taken && exists r :: (forall x :: x in r ==> x < at) && Agree(r + [at], table, clock)
  }

  lemma AgreeThrough(a: seq<Moment>, b: seq<Moment>, c: seq<Moment>, clock: Moment)
    requires Agree(a, b, clock) && Agree(b, c, clock)
    ensures Agree(a, c, clock)
  {
  }

  lemma TracksThrough(effect: Effect, taken: seq<Moment>, table: seq<Moment>, table': seq<Moment>, clock: Moment)
    requires Tracks(effect, taken, table, clock) && Agree(table, table', clock)
    ensures Tracks(effect, taken, table', clock)
  {
    hide Agree;
    match effect
    case Untouched => AgreeThrough(taken, table, table', clock);
    case Cleared => AgreeThrough([], table, table', clock);
    case Stored(at) =>
      var r :| (forall x :: x in r ==> x < at) && Agree(r + [at], table, clock);
      AgreeThrough(r + [at], table, table', clock);
  }

  lemma AgreeLater(a: seq<Moment>, b: seq<Moment>, now: Moment, clock: Moment)
    requires Agree(a, b, now) && now <= clock
    ensures Agree(a, b, clock)
  {
  }

  // A first section changes no client's count from `clock` on.
  lemma FirstAgrees(s: State, e: Event, clock: Moment, ip: string)
    requires e.First? && e.now <= clock
    ensures Agree(FailuresOf(s.failures, ip), FailuresOf(Next(s, e).failures, ip), clock)
  {
    SweptAgrees(s.failures, e.now, ip);
    PrunedAgrees(FailuresOf(s.failures, ip), e.now);
    var now := FailuresOf(Next(s, e).failures, ip);
    assert now == FailuresOf(Swept(s.failures, e.now), ip) || now == Recent(FailuresOf(s.failures, ip), e.now);
    hide Recent, Swept;
    AgreeLater(now, FailuresOf(s.failures, ip), e.now, clock);
  }

  lemma NextTracks(s: State, e: Event, ip: string, before: Effect, taken: seq<Moment>, clock: Moment, bound: Moment)
    requires Tracks(before, taken, FailuresOf(s.failures, ip), clock) && Dated(s, bound)
    requires e.First? ==> e.now <= clock
    requires forall x :: x in taken ==> x in TimesOf(s.log, ip)
    ensures Tracks(EffectOf(s, e, ip, before), taken, FailuresOf(Next(s, e).failures, ip), clock)
  {
    hide Agree, Recent, Swept, TimesOf;
    if e.First? {
      hide Tracks, Next;
      FirstAgrees(s, e, clock, ip);
      TracksThrough(before, taken, FailuresOf(s.failures, ip), FailuresOf(Next(s, e).failures, ip), clock);
    } else if e.id in s.pending && s.pending[e.id].ip == ip {
      var p := s.pending[e.id];
      SelfAgrees(p.recent + [p.now], clock);
      SelfAgrees([], clock);
    }
  }

  lemma SelfAgrees(a: seq<Moment>, clock: Moment)
    ensures Agree(a, a, clock)
  {
  }

  lemma LogOnlyGrows(s: State, e: Event, ip: string, x: Moment)
    requires x in TimesOf(s.log, ip)
    ensures x in TimesOf(Next(s, e).log, ip)
  {
    if e.Fail? && e.id in s.pending {
      TimesSnoc(s.log, Failure(s.pending[e.id].ip, s.pending[e.id].now), ip);
    }
  }

  // The run of request `e` up to just before its second section: `b` are the events in between.
  ghost predicate Waits(a: seq<Event>, e: Event, b: seq<Event>, clock: Moment) {
    && e.First? && !Refuses(Runs(a), e)
    && InStrictOrder(a + [e] + b) && SeenBy(a + [e] + b, clock)
    && forall i :: 0 <= i < |b| ==> b[i].id != e.id
  }

  lemma WaitsBefore(a: seq<Event>, e: Event, b: seq<Event>, clock: Moment)
    requires Waits(a, e, b, clock) && b != []
    ensures Waits(a, e, b[..|b| - 1], clock)
    ensures a + [e] + b == a + [e] + b[..|b| - 1] + [b[|b| - 1]]
    ensures b[|b| - 1].id != e.id && (b[|b| - 1].First? ==> b[|b| - 1].now <= clock)
  {
    var es, front := a + [e] + b, a + [e] + b[..|b| - 1];
    assert front == es[..|es| - 1];
    assert es[|es| - 1] == b[|b| - 1];
  }

  lemma RunsSnoc(es: seq<Event>, e: Event)
    ensures Runs(es + [e]) == Next(Runs(es), e)
  {
    assert (es + [e])[..|es + [e]| - 1] == es;
  }

  // What the request took, and what it still holds.
  function Taken(a: seq<Event>, e: Event): seq<Moment>
    requires e.First?
  {
    Recent(FailuresOf(Runs(a).failures, e.ip), e.now)
  }

  lemma TakenIsLogged(a: seq<Event>, e: Event, x: Moment)
    requires e.First? && x in Taken(a, e)
    ensures x in TimesOf(Runs(a).log, e.ip)
  {
    RunsNeverOvercount(a);
    RecentIsIn(FailuresOf(Runs(a).failures, e.ip), e.now, x);
    CountedIsLogged(Runs(a).failures[e.ip], Runs(a).log, e.ip, x);
  }

  lemma {:induction false} WaitingTracks(a: seq<Event>, e: Event, b: seq<Event>, clock: Moment)
    requires Waits(a, e, b, clock)
    ensures var s := Runs(a + [e] + b);
      && e.id in s.pending && s.pending[e.id] == Pending(e.ip, e.now, Taken(a, e))
      && Tracks(LastEffect(a + [e], b, e.ip), Taken(a, e), FailuresOf(s.failures, e.ip), clock)
      && forall x :: x in Taken(a, e) ==> x in TimesOf(s.log, e.ip)
  {
    if b == [] {
      assert a + [e] + b == a + [e] && (a + [e])[|a|] == e;
      RunsSnoc(a, e);
      forall x | x in Taken(a, e) ensures x in TimesOf(Runs(a).log, e.ip) {
        TakenIsLogged(a, e, x);
      }
      WaitingStarts(Runs(a), e, clock);
    } else {
      WaitsBefore(a, e, b, clock);
      var front, last := a + [e] + b[..|b| - 1], b[|b| - 1];
      WaitingTracks(a, e, b[..|b| - 1], clock);
      RunsSnoc(front, last);
      hide Waits, Tracks, Taken, TimesOf, Recent, Swept, Runs;
      StrictFront(a, e, b[..|b| - 1], clock);
      RunsAreDated(front, clock + 1.0);
      NextTracks(Runs(front), last, e.ip, LastEffect(a + [e], b[..|b| - 1], e.ip), Taken(a, e), clock, clock + 1.0);
      forall x | x in Taken(a, e) ensures x in TimesOf(Next(Runs(front), last).log, e.ip) {
        LogOnlyGrows(Runs(front), last, e.ip, x);
      }
    }
  }

  lemma WaitingStarts(s: State, e: Event, clock: Moment)
    requires e.First? && !Refuses(s, e) && e.now <= clock
    ensures var taken, s' := Recent(FailuresOf(s.failures, e.ip), e.now), Next(s, e);
      && s'.pending[e.id] == Pending(e.ip, e.now, taken) && s'.log == s.log
      && Tracks(Untouched, taken, FailuresOf(s'.failures, e.ip), clock)
  {
    var taken := Recent(FailuresOf(s.failures, e.ip), e.now);
    PrunedAgrees(FailuresOf(s.failures, e.ip), e.now);
    AgreeLater(taken, FailuresOf(s.failures, e.ip), e.now, clock);
    FirstAgrees(s, e, clock, e.ip);
    AgreeThrough(taken, FailuresOf(s.failures, e.ip), FailuresOf(Next(s, e).failures, e.ip), clock);
    hide Agree, Recent, Swept;
  }

  lemma StrictFront(a: seq<Event>, e: Event, b: seq<Event>, clock: Moment)
    requires Waits(a, e, b, clock)
    ensures InStrictOrder(a + [e] + b) && SeenBefore(a + [e] + b, clock + 1.0)
  {
  }

  // ---- lists that count the same from a time on ----

  ghost predicate CountAlike(a: seq<Moment>, b: seq<Moment>, clock: Moment) {
    forall t :: t >= clock ==> |Recent(a, t)| == |Recent(b, t)|
  }

  lemma NoneRecent(ts: seq<Moment>, t: Moment)
    ensures Recent(ts, t) == [] <==> forall x :: x in ts ==> t - x >= WINDOW_SECONDS
  {
    if forall x :: x in ts ==> t - x >= WINDOW_SECONDS {
      assert forall i :: 0 <= i < |ts| ==> ts[i] in ts;
      StaleHasNoRecent(ts, t);
    } else {
      var x :| x in ts && t - x < WINDOW_SECONDS;
      FilterMembers(ts, InWindow(t), x);
    }
  }

  lemma {:induction false} Latest(ts: seq<Moment>) returns (y: Moment)
    requires ts != []
    ensures y in ts && forall x :: x in ts ==> x <= y
  {
    var n := |ts| - 1;
    assert ts == ts[..n] + [ts[n]];
    if n == 0 {
      y := ts[0];
    } else {
      y := Latest(ts[..n]);
      y := if y < ts[n] then ts[n] else y;
    }
  }

  // Some time at which a list that holds `at` and a list that does not count differently.
  lemma StoredDiffers(taken: seq<Moment>, r: seq<Moment>, at: Moment, clock: Moment) returns (t: Moment)
    requires at !in taken && forall x :: x in r ==> x < at
    requires clock - at < WINDOW_SECONDS
    ensures t >= clock && (Recent(taken, t) == [] <==> Recent(r + [at], t) != [])
  {
    if exists x :: x in taken && x > at {
      t := at + WINDOW_SECONDS;
    } else if taken == [] {
      t := clock;
    } else {
      var y := Latest(taken);
      t := if clock < y + WINDOW_SECONDS then y + WINDOW_SECONDS else clock;
    }
    NoneRecent(taken, t);
    NoneRecent(r + [at], t);
    assert at in r + [at];
    hide Recent;
  }

  lemma FeltDiffers(effect: Effect, taken: seq<Moment>, table: seq<Moment>, clock: Moment)
    requires Tracks(effect, taken, table, clock) && StillFelt(effect, taken, clock)
    ensures !CountAlike(taken, table, clock)
  {
    match effect
    case Untouched =>
    case Cleared => assert |Recent(taken, clock)| != |Recent([], clock)|;
    case Stored(at) =>
      var r :| (forall x :: x in r ==> x < at) && Agree(r + [at], table, clock);
      if clock - at < WINDOW_SECONDS {
        var t := StoredDiffers(taken, r, at, clock);
        hide Recent;
        assert Recent(r + [at], t) == Recent(table, t);
      } else {
        NoneRecent(r + [at], clock);
        hide Recent;
        assert Recent(r + [at], clock) == Recent(table, clock);
      }
  }

  lemma UnfeltIsAlike(effect: Effect, taken: seq<Moment>, table: seq<Moment>, clock: Moment)
    requires Tracks(effect, taken, table, clock) && !StillFelt(effect, taken, clock)
    ensures CountAlike(taken, table, clock)
  {
    if effect != Untouched {
      var left: seq<Moment> := [];
      if effect.Stored? {
        var r :| (forall x :: x in r ==> x < effect.at) && Agree(r + [effect.at], table, clock);
        left := r + [effect.at];
      }
      assert Agree(left, table, clock);
      NoneRecent(taken, clock);
      forall t: Moment | t >= clock ensures |Recent(taken, t)| == |Recent(table, t)| {
        NoneRecent(taken, t);
        NoneRecent(left, t);
        assert Recent(left, t) == Recent(table, t);
        hide Recent;
      }
    }
  }

  lemma OneMoreAlike(a: seq<Moment>, b: seq<Moment>, at: Moment, clock: Moment)
    ensures CountAlike(a + [at], b + [at], clock) <==> CountAlike(a, b, clock)
  {
    forall t: Moment
      ensures |Recent(a + [at], t)| == |Recent(b + [at], t)| <==> |Recent(a, t)| == |Recent(b, t)|
    {
      RecentSnoc(a, at, t);
      RecentSnoc(b, at, t);
    }
    hide Recent;
  }

  /** A request takes its client's list, other requests come in between, and its check fails.  The list
      it then stores counts, at every later time, the failures of the table and its own, if and only if
      nothing that the client's other requests did in between is still felt. */
  lemma StoredCountsExactlyUnlessFelt(a: seq<Event>, e: Event, b: seq<Event>, clock: Moment)
    requires Waits(a, e, b, clock)
    ensures var s := Runs(a + [e] + b);
      var stored := FailuresOf(Next(s, Fail(e.id)).failures, e.ip);
      var felt := StillFelt(LastEffect(a + [e], b, e.ip), Taken(a, e), clock);
      CountAlike(stored, FailuresOf(s.failures, e.ip) + [e.now], clock) <==> !felt
  {
    WaitingTracks(a, e, b, clock);
    var s, effect, taken := Runs(a + [e] + b), LastEffect(a + [e], b, e.ip), Taken(a, e);
    var table := FailuresOf(s.failures, e.ip);
    assert FailuresOf(Next(s, Fail(e.id)).failures, e.ip) == taken + [e.now];
    hide Waits, Tracks, StillFelt, CountAlike, Taken, Runs, Next;
    OneMoreAlike(taken, table, e.now, clock);
    if StillFelt(effect, taken, clock) {
      FeltDiffers(effect, taken, table, clock);
    } else {
      UnfeltIsAlike(effect, taken, table, clock);
    }
  }

  lemma SeenButLast(a: seq<Event>, b: seq<Event>, clock: Moment)
    requires SeenBy(a + b, clock) && b != []
    ensures a + b == a + b[..|b| - 1] + [b[|b| - 1]]
    ensures SeenBy(a + b[..|b| - 1], clock) && (b[|b| - 1].First? ==> b[|b| - 1].now <= clock)
  {
    assert a + b[..|b| - 1] == (a + b)[..|a + b| - 1];
    assert (a + b)[|a + b| - 1] == b[|b| - 1];
  }

  /** Where no other second section of the client came in between the list is exact in any case, whatever
      the order in which the clock was read. */
  lemma {:induction false} UntouchedCountsExactly(a: seq<Event>, e: Event, b: seq<Event>, clock: Moment)
    requires e.First? && !Refuses(Runs(a), e) && SeenBy(a + [e] + b, clock)
    requires forall i :: 0 <= i < |b| ==> b[i].id != e.id
    requires LastEffect(a + [e], b, e.ip) == Untouched
    ensures var s := Runs(a + [e] + b);
      && e.id in s.pending && s.pending[e.id] == Pending(e.ip, e.now, Taken(a, e))
      && Agree(Taken(a, e), FailuresOf(s.failures, e.ip), clock)
  {
    if b == [] {
      assert a + [e] + b == a + [e] && (a + [e])[|a|] == e;
      RunsSnoc(a, e);
      WaitingStarts(Runs(a), e, clock);
    } else {
      var front, last := a + [e] + b[..|b| - 1], b[|b| - 1];
      SeenButLast(a + [e], b, clock);
      hide Agree, Runs, Taken, Recent, Swept, SeenBy, FailuresOf;
      UntouchedCountsExactly(a, e, b[..|b| - 1], clock);
      RunsSnoc(front, last);
      if last.First? {
        FirstAgrees(Runs(front), last, clock, e.ip);
        AgreeThrough(Taken(a, e), FailuresOf(Runs(front).failures, e.ip),
                     FailuresOf(Runs(front + [last]).failures, e.ip), clock);
      }
    }
  }

  /** The simplest overlap that loses a failure: both took the list before either stored. */
  lemma OverlapCanLoseOne()
    ensures var es := [First(0, "a", 0.0), First(1, "a", 1.0), Fail(0), Fail(1)];
      TimesOf(Runs(es).log, "a") == [0.0, 1.0] && FailuresOf(Runs(es).failures, "a") == [1.0]
  {
    var s0 := State(map[], map[], []);
    TakesNothing(s0, 0, "a", 0.0);
    var s1 := s0.(pending := s0.pending[0 := Pending("a", 0.0, [])]);
    TakesNothing(s1, 1, "a", 1.0);
    var s2 := s1.(pending := s1.pending[1 := Pending("a", 1.0, [])]);
    Stores(s2, 0);
    Stores(Next(s2, Fail(0)), 1);
    hide Next, TimesOf;
    RunsFour(First(0, "a", 0.0), First(1, "a", 1.0), Fail(0), Fail(1));
    TimesSnoc([], Failure("a", 0.0), "a");
    TimesSnoc([] + [Failure("a", 0.0)], Failure("a", 1.0), "a");
    NoTimes("a");
    assert [] + [0.0] + [1.0] == [0.0, 1.0];
  }

  lemma NoTimes(ip: string)
    ensures TimesOf([], ip) == []
  {
  }

  lemma TakesNothing(s: State, id: nat, ip: string, now: Moment)
    requires s.failures == map[]
    ensures Next(s, First(id, ip, now)) == s.(pending := s.pending[id := Pending(ip, now, [])])
  {
  }

  lemma Stores(s: State, id: nat)
    requires id in s.pending && s.pending[id].recent == []
    ensures var p := s.pending[id];
      Next(s, Fail(id)) == State(s.failures[p.ip := [p.now]], s.pending - {id}, s.log + [Failure(p.ip, p.now)])
  {
    assert [] + [s.pending[id].now] == [s.pending[id].now];
  }

  lemma RunsFour(e0: Event, e1: Event, e2: Event, e3: Event)
    ensures Runs([e0, e1, e2, e3]) == Next(Next(Next(Next(State(map[], map[], []), e0), e1), e2), e3)
  {
    hide Next;
    RunsSnoc([], e0);
    RunsSnoc([e0], e1);
    RunsSnoc([e0, e1], e2);
    RunsSnoc([e0, e1, e2], e3);
    assert [] + [e0] == [e0] && [e0] + [e1] == [e0, e1] && [e0, e1] + [e2] == [e0, e1, e2];
    assert [e0, e1, e2] + [e3] == [e0, e1, e2, e3];
  }
}
