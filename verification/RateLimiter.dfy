/** The fixed-window rate limiter and its background cleanup (kettle-sgx/sgx-entrypoint.go). */
module RateLimiter {
  const WINDOW_MS := 60_000
  const MAX_REQUESTS := 10

  datatype Entry = Entry(count: nat, windowStart: int)

  type Table = map<string, Entry>

  predicate Expired(e: Entry, now: int) {
    now - e.windowStart > WINDOW_MS
  }

  predicate Limited(t: Table, ip: string, now: int) {
    ip in t && !Expired(t[ip], now) && t[ip].count >= MAX_REQUESTS
  }

  function AfterRequest(t: Table, ip: string, now: int): Table {
    if ip !in t || Expired(t[ip], now) then t[ip := Entry(1, now)]
    else if t[ip].count >= MAX_REQUESTS then t
    else t[ip := Entry(t[ip].count + 1, t[ip].windowStart)]
  }

  function AfterCleanup(t: Table, now: int): Table {
    map ip | ip in t && !Expired(t[ip], now) :: t[ip]
  }

  class QuoteService {
    var rateLimitMap: map<string, Entry>

    constructor ()
      ensures rateLimitMap == map[]
    {
      rateLimitMap := map[];
    }

    method IsRateLimited(ip: string, now: int) returns (limited: bool)
      modifies this
      ensures limited == Limited(old(rateLimitMap), ip, now)
      ensures rateLimitMap == AfterRequest(old(rateLimitMap), ip, now)
      ensures var known := ip in old(rateLimitMap) && now - old(rateLimitMap)[ip].windowStart <= 60_000;
              && (limited <==> known && old(rateLimitMap)[ip].count >= 10)
              && (!known ==> rateLimitMap == old(rateLimitMap)[ip := Entry(1, now)])
              && (limited ==> rateLimitMap == old(rateLimitMap))
              && (known && !limited ==>
                    rateLimitMap == old(rateLimitMap)[ip := Entry(old(rateLimitMap)[ip].count + 1,
                                                                  old(rateLimitMap)[ip].windowStart)])
    {
      if ip !in rateLimitMap || now - rateLimitMap[ip].windowStart > WINDOW_MS {
        rateLimitMap := rateLimitMap[ip := Entry(1, now)];
        return false;
      }
      var entry := rateLimitMap[ip];
      if entry.count >= MAX_REQUESTS {
        return true;
      }
      rateLimitMap := rateLimitMap[ip := entry.(count := entry.count + 1)];
      return false;
    }

    /** The loop may visit the addresses in any order. */
    method CleanupRateLimitEntries(now: int)
      modifies this
      ensures rateLimitMap == AfterCleanup(old(rateLimitMap), now)
      ensures forall ip :: ip in rateLimitMap <==>
        ip in old(rateLimitMap) && now - old(rateLimitMap)[ip].windowStart <= 60_000
      ensures forall ip :: ip in rateLimitMap ==> rateLimitMap[ip] == old(rateLimitMap)[ip]
    {
      var todo := rateLimitMap.Keys;
      while todo != {}
        invariant todo <= rateLimitMap.Keys <= old(rateLimitMap).Keys
        invariant forall ip :: ip in old(rateLimitMap) && ip !in todo ==>
          (ip in rateLimitMap <==> !Expired(old(rateLimitMap)[ip], now))
        invariant forall ip :: ip in rateLimitMap ==> rateLimitMap[ip] == old(rateLimitMap)[ip]
        decreases todo
      {
        var ip :| ip in todo;
        if now - rateLimitMap[ip].windowStart > WINDOW_MS {
          rateLimitMap := rateLimitMap - {ip};
        }
        todo := todo - {ip};
      }
      assert forall ip :: ip in rateLimitMap <==> ip in AfterCleanup(old(rateLimitMap), now);
    }
  }

  // ---- whole runs ----

  /** Requests and cleanups in the order in which they take the lock, with the clock they read. */
  datatype Event = Request(ip: string, at: int) | Cleanup(at: int)

  predicate Monotone(run: seq<Event>) {
    forall i, j :: 0 <= i < j < |run| ==> run[i].at <= run[j].at
  }

  function TableAfter(run: seq<Event>): Table {
    if run == [] then map[]
    else
      var t, e := TableAfter(run[..|run| - 1]), run[|run| - 1];
      if e.Request? then AfterRequest(t, e.ip, e.at) else AfterCleanup(t, e.at)
  }

  function WithoutCleanups(run: seq<Event>): seq<Event> {
    if run == [] then []
    else
      var r, e := WithoutCleanups(run[..|run| - 1]), run[|run| - 1];
      if e.Request? then r + [e] else r
  }

  /** The decision on a request that comes at the end of a run. */
  predicate Refused(run: seq<Event>, ip: string, now: int) {
    Limited(TableAfter(run), ip, now)
  }

  /** Two tables that no decision at or after `now` can tell apart. */
  ghost predicate SameFrom(t: Table, u: Table, now: int) {
    forall ip :: (ip in t ==> ip in u && t[ip] == u[ip])
              && (ip in u && ip !in t ==> Expired(u[ip], now))
  }

  lemma {:induction false} SameRequest(t: Table, u: Table, ip: string, now: int)
    requires SameFrom(t, u, now)
    ensures Limited(t, ip, now) == Limited(u, ip, now)
    ensures SameFrom(AfterRequest(t, ip, now), AfterRequest(u, ip, now), now)
  {
  }

  lemma {:induction false} TablesAgree(run: seq<Event>, now: int)
    requires Monotone(run) && forall i :: 0 <= i < |run| ==> run[i].at <= now
    ensures SameFrom(TableAfter(run), TableAfter(WithoutCleanups(run)), now)
  {
    if run != [] {
      var front, e := run[..|run| - 1], run[|run| - 1];
      TablesAgree(front, e.at);
      var t, u := TableAfter(front), TableAfter(WithoutCleanups(front));
      if e.Request? {
        var w := WithoutCleanups(front);
        assert (w + [e])[..|w|] == w;
        SameRequest(t, u, e.ip, e.at);
      }
    }
  }

  /** Cleanups, however interleaved, change no later decision. */
  lemma {:induction false} CleanupsAreInvisible(run: seq<Event>, ip: string, now: int)
    requires Monotone(run + [Request(ip, now)])
    ensures Refused(run, ip, now) == Refused(WithoutCleanups(run), ip, now)
  {
    var all := run + [Request(ip, now)];
    forall i, j | 0 <= i < j < |run|
      ensures run[i].at <= run[j].at
    {
      assert all[i] == run[i] && all[j] == run[j];
    }
    forall i | 0 <= i < |run|
      ensures run[i].at <= now
    {
      assert all[i] == run[i] && all[|run|].at == now;
    }
    TablesAgree(run, now);
  }

  /** Requests of `ip` that were admitted at a time in `[lo, hi]`. */
  function Admitted(run: seq<Event>, ip: string, lo: int, hi: int): nat {
    if run == [] then 0
    else
      var front, e := run[..|run| - 1], run[|run| - 1];
      Admitted(front, ip, lo, hi)
      + if e.Request? && e.ip == ip && lo <= e.at <= hi && !Refused(front, ip, e.at) then 1 else 0
  }

  lemma {:induction false} MonotoneFront(run: seq<Event>)
    requires Monotone(run) && run != []
    ensures Monotone(run[..|run| - 1])
    ensures forall i :: 0 <= i < |run| - 1 ==> run[i].at <= run[|run| - 1].at
  {
  }

  /** No admission is later than the last event. */
  lemma {:induction false} NoneAfterLast(run: seq<Event>, ip: string, lo: int, hi: int)
    requires Monotone(run) && (run != [] ==> run[|run| - 1].at < lo)
    ensures Admitted(run, ip, lo, hi) == 0
  {
    if run != [] {
      MonotoneFront(run);
      NoneAfterLast(run[..|run| - 1], ip, lo, hi);
    }
  }

  predicate OnlyRequests(run: seq<Event>) {
    forall i :: 0 <= i < |run| ==> run[i].Request?
  }

  /** Nothing is admitted later than 60,000 ms after the window that is on record opened. */
  lemma {:induction false} NoneAfterWindow(run: seq<Event>, ip: string, lo: int, hi: int)
    requires Monotone(run) && OnlyRequests(run)
    requires ip in TableAfter(run) ==> lo > TableAfter(run)[ip].windowStart + WINDOW_MS
    ensures Admitted(run, ip, lo, hi) == 0
  {
    if run != [] {
      var front, e := run[..|run| - 1], run[|run| - 1];
      MonotoneFront(run);
      if e.ip == ip && (ip !in TableAfter(front) || Expired(TableAfter(front)[ip], e.at)) {
        NoneAfterLast(run, ip, lo, hi);
      } else {
        NoneAfterWindow(front, ip, lo, hi);
      }
    }
  }

  /** The entry of an address counts exactly the admissions since its window opened, at most ten. */
  lemma {:induction false} WindowCount(run: seq<Event>, ip: string, hi: int)
    requires Monotone(run) && OnlyRequests(run) && (run != [] ==> run[|run| - 1].at <= hi)
    requires ip in TableAfter(run)
    ensures var e := TableAfter(run)[ip];
            e.count <= MAX_REQUESTS && e.windowStart <= hi && Admitted(run, ip, e.windowStart, hi) == e.count
  {
    var front, e := run[..|run| - 1], run[|run| - 1];
    MonotoneFront(run);
    if e.ip == ip && (ip !in TableAfter(front) || Expired(TableAfter(front)[ip], e.at)) {
      NoneAfterWindow(front, ip, e.at, hi);
    } else {
      WindowCount(front, ip, hi);
      WindowCount(front, ip, e.at);
    }
  }

  /** A span of 60,000 ms touches at most two windows of an address. */
  lemma {:induction false} SpanBound(run: seq<Event>, ip: string, lo: int)
    requires Monotone(run) && OnlyRequests(run)
    ensures ip !in TableAfter(run) ==> Admitted(run, ip, lo, lo + WINDOW_MS) == 0
    ensures ip in TableAfter(run) ==>
      var e, n := TableAfter(run)[ip], Admitted(run, ip, lo, lo + WINDOW_MS);
      && e.count <= MAX_REQUESTS
      && (e.windowStart < lo ==> n <= e.count)
      && (lo <= e.windowStart <= lo + WINDOW_MS ==> n <= MAX_REQUESTS + e.count)
      && n <= 2 * MAX_REQUESTS
  {
    if run != [] {
      MonotoneFront(run);
      SpanBound(run[..|run| - 1], ip, lo);
      if ip in TableAfter(run[..|run| - 1]) {
        WindowCount(run[..|run| - 1], ip, run[|run| - 1].at);
      }
      if run[|run| - 1].at < lo {
        NoneAfterLast(run, ip, lo, lo + WINDOW_MS);
      }
    }
  }

  // ---- the same with cleanups anywhere ----

  lemma {:induction false} WithoutIsRun(run: seq<Event>)
    requires Monotone(run)
    ensures var w := WithoutCleanups(run);
            Monotone(w) && OnlyRequests(w) && (w != [] ==> run != [] && w[|w| - 1].at <= run[|run| - 1].at)
  {
    if run != [] {
      MonotoneFront(run);
      WithoutIsRun(run[..|run| - 1]);
    }
  }

  lemma {:induction false} AdmittedAppend(front: seq<Event>, e: Event, ip: string, lo: int, hi: int)
    ensures Admitted(front + [e], ip, lo, hi)
         == Admitted(front, ip, lo, hi)
            + if e.Request? && e.ip == ip && lo <= e.at <= hi && !Refused(front, ip, e.at) then 1 else 0
  {
    hide Refused;
    assert (front + [e])[..|front|] == front;
  }

  lemma {:induction false} WithoutAppend(front: seq<Event>, e: Event)
    ensures WithoutCleanups(front + [e]) == if e.Request? then WithoutCleanups(front) + [e] else WithoutCleanups(front)
  {
    assert (front + [e])[..|front|] == front;
  }

  lemma {:induction false} SameAdmissions(run: seq<Event>, ip: string, lo: int, hi: int)
    requires Monotone(run)
    ensures Admitted(run, ip, lo, hi) == Admitted(WithoutCleanups(run), ip, lo, hi)
  {
    if run != [] {
      var front, e := run[..|run| - 1], run[|run| - 1];
      MonotoneFront(run);
      assert forall i :: 0 <= i < |front| ==> front[i].at <= e.at;
      hide Refused, Monotone, TableAfter, Admitted, WithoutCleanups;
      assert run == front + [e];
      SameAdmissions(front, ip, lo, hi);
      SameDecision(front, ip, e.at);
      WithoutAppend(front, e);
      AdmittedAppend(front, e, ip, lo, hi);
      AdmittedAppend(WithoutCleanups(front), e, ip, lo, hi);
    }
  }

  lemma {:induction false} SameDecision(run: seq<Event>, ip: string, now: int)
    requires Monotone(run) && forall i :: 0 <= i < |run| ==> run[i].at <= now
    ensures Refused(run, ip, now) == Refused(WithoutCleanups(run), ip, now)
  {
    TablesAgree(run, now);
  }

  /** At any point of any run, the window on record for an address has had exactly `count` admissions, at most ten. */
  lemma {:induction false} AtMostTenPerWindow(run: seq<Event>, ip: string, now: int)
    requires Monotone(run) && (run != [] ==> run[|run| - 1].at <= now)
    requires ip in TableAfter(run)
    ensures var e := TableAfter(run)[ip];
            Admitted(run, ip, e.windowStart, now) == e.count <= 10
  {
    hide TableAfter, Admitted, WithoutCleanups;
    WithoutIsRun(run);
    TablesAgree(run, now);
    WindowCount(WithoutCleanups(run), ip, now);
    SameAdmissions(run, ip, TableAfter(run)[ip].windowStart, now);
  }

  /** A request is refused if and only if the window on record is at most 60,000 ms old and has had ten admissions. */
  lemma {:induction false} RefusedIff(run: seq<Event>, ip: string, now: int)
    requires Monotone(run) && (run != [] ==> run[|run| - 1].at <= now)
    ensures Refused(run, ip, now)
       <==> (&& ip in TableAfter(run) && now - TableAfter(run)[ip].windowStart <= 60_000
             && Admitted(run, ip, TableAfter(run)[ip].windowStart, now) == 10)
  {
    hide TableAfter, Admitted;
    if ip in TableAfter(run) {
      AtMostTenPerWindow(run, ip, now);
    }
  }

  /** In any 60,000 ms an address gets at most twenty admissions. */
  lemma {:induction false} AtMostTwentyPerSpan(run: seq<Event>, ip: string, lo: int)
    requires Monotone(run)
    ensures Admitted(run, ip, lo, lo + 60_000) <= 20
  {
    hide TableAfter, Admitted, WithoutCleanups;
    WithoutIsRun(run);
    SpanBound(WithoutCleanups(run), ip, lo);
    SameAdmissions(run, ip, lo, lo + WINDOW_MS);
  }

  /** Who is refused has been admitted ten times in the preceding 60,000 ms. */
  lemma {:induction false} RefusalMeansTen(run: seq<Event>, ip: string, now: int)
    requires Monotone(run) && (run != [] ==> run[|run| - 1].at <= now)
    requires Refused(run, ip, now)
    ensures Admitted(run, ip, now - 60_000, now) >= 10
  {
    hide TableAfter, Admitted;
    AtMostTenPerWindow(run, ip, now);
    WiderSpan(run, ip, now - WINDOW_MS, TableAfter(run)[ip].windowStart, now);
  }

  lemma {:induction false} WiderSpan(run: seq<Event>, ip: string, lo: int, lo': int, hi: int)
    requires lo <= lo'
    ensures Admitted(run, ip, lo', hi) <= Admitted(run, ip, lo, hi)
  {
    if run != [] {
      WiderSpan(run[..|run| - 1], ip, lo, lo', hi);
    }
  }
}
