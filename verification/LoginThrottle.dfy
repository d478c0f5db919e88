/** The login throttle: a pruned table of failed attempts behind a lock that each request takes twice
    (app/auth.py, `require_admin`). */
module LoginThrottle {
  import opened Basics

  // time.monotonic()
  type Moment = real

  const MAX_FAILURES: nat := 10
  const WINDOW_SECONDS: Moment := 300.0

  type Table = map<string, seq<Moment>>

  function InWindow(now: Moment): Moment -> bool {
    (t: Moment) => now - t < WINDOW_SECONDS
  }

  function Recent(ts: seq<Moment>, now: Moment): seq<Moment> {
    Filter(ts, InWindow(now))
  }

  // The failures of the last 300 seconds.
  function InLastFiveMinutes(ts: seq<Moment>, now: Moment): set<nat> {
    set i: nat | i < |ts| && now - ts[i] < 300.0
  }

  lemma {:induction false} RecentMeaning(ts: seq<Moment>, now: Moment)
    ensures |Recent(ts, now)| == |InLastFiveMinutes(ts, now)|
  {
    if ts != [] {
      var n := |ts| - 1;
      RecentMeaning(ts[..n], now);
      var before := InLastFiveMinutes(ts[..n], now);
      assert InLastFiveMinutes(ts, now) == before + if now - ts[n] < 300.0 then {n} else {};
    } else {
      assert InLastFiveMinutes(ts, now) == {};
    }
  }

  // `_failures.get(ip, [])`
  function FailuresOf(table: Table, ip: string): seq<Moment> {
    if ip in table then table[ip] else []
  }

  predicate AllStale(ts: seq<Moment>, now: Moment) {
    forall i :: 0 <= i < |ts| ==> now - ts[i] >= WINDOW_SECONDS
  }

  function Swept(table: Table, now: Moment): Table {
    map ip | ip in table && !AllStale(table[ip], now) :: table[ip]
  }

  datatype Verdict = Throttled | Denied | Granted

  // A blank configured password matches nothing.
  predicate Accepts(user: string, password: string, expectedUser: string, expectedPassword: string) {
    user == expectedUser && expectedPassword != "" && password == expectedPassword
  }

  // ---- the two locked sections ----

  class Throttle {
    var failures: Table
    // every failed check of a client since its last success, and the time of the last request
    ghost var history: Table
    ghost var clock: Moment

    constructor ()
      ensures Valid() && history == map[]
    {
      failures, history, clock := map[], map[], 0.0;
    }

    ghost predicate Valid()
      reads this
    {
      Refines(failures, history, clock) && HistoryOk(history, clock)
    }

    // The first section: prune, sweep, and refuse.
    method Admit(ip: string, now: Moment) returns (recent: seq<Moment>, throttled: bool)
      modifies `failures
      ensures recent == Recent(FailuresOf(old(failures), ip), now)
      ensures throttled <==> |recent| >= MAX_FAILURES
      ensures failures == if throttled then Swept(old(failures), now)[ip := recent] else Swept(old(failures), now)
    {
      recent := Recent(FailuresOf(failures, ip), now);
      var stale := set k | k in failures && AllStale(failures[k], now);
      while stale != {}
        invariant Swept(old(failures), now).Keys <= failures.Keys <= old(failures).Keys
        invariant forall k :: k in failures ==> failures[k] == old(failures)[k]
        invariant forall k :: k in failures && AllStale(failures[k], now) ==> k in stale
      {
        var k: string :| k in stale;
        failures := failures - {k};
        stale := stale - {k};
      }
      throttled := |recent| >= MAX_FAILURES;
      if throttled {
        failures := failures[ip := recent];
      }
    }

    // The second section, after a failed check and after a good login.
    method RecordFailure(ip: string, recent: seq<Moment>, now: Moment)
      modifies `failures
      ensures failures == old(failures)[ip := recent + [now]]
    {
      failures := failures[ip := recent + [now]];
    }

    method ClearSlate(ip: string)
      modifies `failures
      ensures failures == old(failures) - {ip}
    {
      failures := failures - {ip};
    }

    /** One request with no other request in between: it is throttled exactly when the full history of
        the client since its last success holds ten failures of the last 300 seconds. */
    method RequireAdmin(ip: string, now: Moment, user: string, password: string,
                        expectedUser: string, expectedPassword: string)
      returns (verdict: Verdict)
      requires Valid() && clock <= now
      modifies this
      ensures Valid() && clock == now
      ensures verdict ==
        if |Recent(FailuresOf(old(history), ip), now)| >= 10 then Throttled
        else if user == expectedUser && password == expectedPassword && password != "" then Granted
        else Denied
      ensures history ==
        match verdict
        case Throttled => old(history)
        case Denied => old(history)[ip := FailuresOf(old(history), ip) + [now]]
        case Granted => old(history) - {ip}
    {
      ghost var table, past, before := failures, history, clock;
      var recent, throttled := Admit(ip, now);
      SweepRefines(table, past, before, now, ip);
      assert Agree(FailuresOf(table, ip), FailuresOf(past, ip), before);
      assert recent == Recent(FailuresOf(past, ip), now);
      assert Accepts(user, password, expectedUser, expectedPassword) <==>
        user == expectedUser && password == expectedPassword && password != "";
      hide Refines, Agree, Recent, Swept, HistoryOk, Accepts;
      HistoryGrows(past, before, now, ip);
      clock := now;
      if throttled {
        return Throttled;
      }
      if !Accepts(user, password, expectedUser, expectedPassword) {
        FailureRefines(failures, past, now, ip, recent, now);
        RecordFailure(ip, recent, now);
        history := history[ip := FailuresOf(history, ip) + [now]];
        return Denied;
      }
      SuccessRefines(failures, past, now, ip);
      ClearSlate(ip);
      history := history - {ip};
      return Granted;
    }
  }

  // ---- the pruned table against the full history ----

  /** From `clock` on, the two lists count the same failures. */
  ghost predicate Agree(a: seq<Moment>, b: seq<Moment>, clock: Moment) {
    forall t :: t >= clock ==> Recent(a, t) == Recent(b, t)
  }

  /** From `clock` on, the table and the history count the same failures for every client. */
  ghost predicate Refines(table: Table, history: Table, clock: Moment) {
    forall ip :: Agree(FailuresOf(table, ip), FailuresOf(history, ip), clock)
  }

  lemma {:induction false} RecentOfRecent(ts: seq<Moment>, now: Moment, later: Moment)
    requires now <= later
    ensures Recent(Recent(ts, now), later) == Recent(ts, later)
  {
    if ts != [] {
      var front, t := ts[..|ts| - 1], ts[|ts| - 1];
      assert ts == front + [t];
      RecentOfRecent(front, now, later);
      RecentSnoc(front, t, now);
      RecentSnoc(front, t, later);
      RecentSnoc(Recent(front, now), t, later);
      assert Recent(front, now) + [] == Recent(front, now) && Recent(front, later) + [] == Recent(front, later);
    }
  }

  lemma RecentSnoc(ts: seq<Moment>, t: Moment, now: Moment)
    ensures Recent(ts + [t], now) == Recent(ts, now) + (if now - t < WINDOW_SECONDS then [t] else [])
  {
    assert (ts + [t])[..|ts + [t]| - 1] == ts;
  }

  lemma {:induction false} StaleHasNoRecent(ts: seq<Moment>, now: Moment)
    requires AllStale(ts, now)
    ensures Recent(ts, now) == []
  {
    if ts != [] {
      StaleHasNoRecent(ts[..|ts| - 1], now);
    }
  }

  lemma PrunedAgrees(ts: seq<Moment>, now: Moment)
    ensures Agree(Recent(ts, now), ts, now)
  {
    forall t: Moment | t >= now ensures Recent(Recent(ts, now), t) == Recent(ts, t) {
      RecentOfRecent(ts, now, t);
    }
  }

  lemma OneMoreAgrees(a: seq<Moment>, b: seq<Moment>, clock: Moment, at: Moment)
    requires Agree(a, b, clock)
    ensures Agree(a + [at], b + [at], clock)
  {
    forall t: Moment | t >= clock ensures Recent(a + [at], t) == Recent(b + [at], t) {
      RecentSnoc(a, at, t);
      RecentSnoc(b, at, t);
    }
  }

  // Neither pruning nor sweeping changes what counts from then on.
  lemma SweptAgrees(table: Table, now: Moment, k: string)
    ensures Agree(FailuresOf(Swept(table, now), k), FailuresOf(table, k), now)
  {
    if k in table && AllStale(table[k], now) {
      forall t: Moment | t >= now ensures Recent(table[k], t) == [] {
        StaleHasNoRecent(table[k], t);
      }
    }
  }

  lemma SweepRefines(table: Table, history: Table, clock: Moment, now: Moment, ip: string)
    requires Refines(table, history, clock) && clock <= now
    ensures Refines(Swept(table, now), history, now)
    ensures Refines(Swept(table, now)[ip := Recent(FailuresOf(table, ip), now)], history, now)
    ensures Agree(Recent(FailuresOf(table, ip), now), FailuresOf(history, ip), now)
  {
    PrunedAgrees(FailuresOf(table, ip), now);
    assert Agree(FailuresOf(table, ip), FailuresOf(history, ip), clock);
    var kept := Swept(table, now)[ip := Recent(FailuresOf(table, ip), now)];
    forall k
      ensures Agree(FailuresOf(Swept(table, now), k), FailuresOf(history, k), now)
      ensures Agree(FailuresOf(kept, k), FailuresOf(history, k), now)
    {
      SweptAgrees(table, now, k);
      assert Agree(FailuresOf(table, k), FailuresOf(history, k), clock);
      assert k != ip ==> FailuresOf(kept, k) == FailuresOf(Swept(table, now), k);
      hide Recent, Swept;
    }
  }

  lemma FailureRefines(table: Table, history: Table, clock: Moment, ip: string, recent: seq<Moment>, at: Moment)
    requires Refines(table, history, clock) && Agree(recent, FailuresOf(history, ip), clock)
    ensures Refines(table[ip := recent + [at]], history[ip := FailuresOf(history, ip) + [at]], clock)
  {
    hide Agree;
    OneMoreAgrees(recent, FailuresOf(history, ip), clock, at);
    var table', history' := table[ip := recent + [at]], history[ip := FailuresOf(history, ip) + [at]];
    forall k ensures Agree(FailuresOf(table', k), FailuresOf(history', k), clock) {
      assert Agree(FailuresOf(table, k), FailuresOf(history, k), clock);
    }
  }

  lemma SuccessRefines(table: Table, history: Table, clock: Moment, ip: string)
    requires Refines(table, history, clock)
    ensures Refines(table - {ip}, history - {ip}, clock)
  {
    forall k ensures Agree(FailuresOf(table - {ip}, k), FailuresOf(history - {ip}, k), clock) {
      assert Agree(FailuresOf(table, k), FailuresOf(history, k), clock);
      assert k != ip ==> FailuresOf(table - {ip}, k) == FailuresOf(table, k);
      assert k != ip ==> FailuresOf(history - {ip}, k) == FailuresOf(history, k);
      hide Recent;
    }
  }

  // ---- how dense failures can be ----

  predicate UpTo(ts: seq<Moment>, now: Moment) {
    && (forall i :: 0 <= i < |ts| ==> ts[i] <= now)
    && (forall i, j :: 0 <= i < j < |ts| ==> ts[i] <= ts[j])
  }

  /** Any eleven failures in a row take at least 300 seconds: no more than ten failed checks fit in a
      window without a success. */
  predicate Spaced(ts: seq<Moment>) {
    forall i :: 10 <= i < |ts| ==> ts[i] - ts[i - 10] >= 300.0
  }

  lemma {:induction false} FewRecent(ts: seq<Moment>, now: Moment, n: nat)
    requires UpTo(ts, now) && n < |ts| && now - ts[|ts| - 1 - n] < WINDOW_SECONDS
    ensures |Recent(ts, now)| >= n + 1
  {
    var front := ts[..|ts| - 1];
    assert ts[|ts| - 1 - n] <= ts[|ts| - 1];
    if n > 0 {
      assert front[|front| - 1 - (n - 1)] == ts[|ts| - 1 - n];
      FewRecent(front, now, n - 1);
    }
  }

  lemma AllowedFailureIsSpaced(ts: seq<Moment>, now: Moment)
    requires UpTo(ts, now) && Spaced(ts) && |Recent(ts, now)| < MAX_FAILURES
    ensures Spaced(ts + [now])
  {
    if |ts| >= MAX_FAILURES && now - ts[|ts| - MAX_FAILURES] < WINDOW_SECONDS {
      FewRecent(ts, now, MAX_FAILURES - 1);
    }
  }

  ghost predicate HistoryOk(history: Table, clock: Moment) {
    forall ip :: ip in history ==> Spaced(history[ip]) && UpTo(history[ip], clock)
  }

  lemma HistoryGrows(history: Table, clock: Moment, now: Moment, ip: string)
    requires clock <= now && HistoryOk(history, clock)
    ensures HistoryOk(history, now) && HistoryOk(history - {ip}, now)
    ensures var ts := FailuresOf(history, ip);
      |Recent(ts, now)| < MAX_FAILURES ==> HistoryOk(history[ip := ts + [now]], now)
  {
    var ts := FailuresOf(history, ip);
    assert Spaced(ts) && UpTo(ts, now);
    if |Recent(ts, now)| < MAX_FAILURES {
      AllowedFailureIsSpaced(ts, now);
    }
  }
}
