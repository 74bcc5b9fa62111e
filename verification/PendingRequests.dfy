/**
 The table of fetches that wait for a response: `TunnelClient` in tunnel/src/client.ts, and the
 service-worker copy in tunnel/src/sw.ts, which differs in two places.
 */
module PendingRequests {
  import opened Bytes
  import opened Messages

  datatype Variant = Page | ServiceWorker

  /** A decrypted http_response. `headersOk`: the header map accepts every name and value. */
  datatype Response = Response(id: ReqId, error: string, status: int, body: Option<seq<byte>>, headersOk: bool)

  datatype Promise = Pending | Resolved(status: int, body: Option<seq<byte>>) | Rejected(reason: string)

  /** The body that is handed to the `Response` constructor. */
  function GivenBody(r: Response): Option<seq<byte>> {
    if r.status == 204 then None else r.body
  }

  /** The `Response` constructor does not throw: a status in range, and no body with a null-body status. */
  predicate Constructible(r: Response) {
    && r.headersOk && 200 <= r.status <= 599
    && (r.status in {204, 205, 304} ==> GivenBody(r).None?)
  }

  /** Settling a settled promise does nothing. */
  function Settle(ps: map<ReqId, Promise>, id: ReqId, p: Promise): map<ReqId, Promise> {
    if id in ps && ps[id].Pending? then ps[id := p] else ps
  }

  function SettleAll(ps: map<ReqId, Promise>, ids: set<ReqId>, p: Promise): map<ReqId, Promise> {
    map id | id in ps :: if id in ids && ps[id].Pending? then p else ps[id]
  }

  /**
   `table` holds the ids in `pendingRequests`, `promises` the state of every promise handed out.
   `stranded` is history: the ids that a response took out of the table without settling them.
   */
  datatype State = State(table: set<ReqId>, promises: map<ReqId, Promise>, closed: bool, stranded: set<ReqId>)

  function AfterFetch(v: Variant, s: State, id: ReqId, sendOk: bool): State {
    var promises := s.promises[id := if sendOk then Pending else Rejected("send failed")];
    s.(promises := promises, table := if sendOk || v.Page? then s.table + {id} else s.table - {id})
  }

  function AfterResponse(s: State, r: Response): State {
    if r.id !in s.table then s
    else
      var t := s.(table := s.table - {r.id});
      if r.error != "" then t.(promises := Settle(t.promises, r.id, Rejected(r.error)))
      else if Constructible(r) then t.(promises := Settle(t.promises, r.id, Resolved(r.status, GivenBody(r))))
      else if r.id in t.promises && t.promises[r.id].Pending? then t.(stranded := t.stranded + {r.id})
      else t
  }

  function AfterTimeout(s: State, id: ReqId): State {
    if id !in s.table then s
    else s.(table := s.table - {id}, promises := Settle(s.promises, id, Rejected("Request timeout")))
  }

  function RejectTable(s: State, reason: string): State {
    s.(table := {}, promises := SettleAll(s.promises, s.table, Rejected(reason)))
  }

  function AfterClose(s: State): State {
    if s.closed then s else RejectTable(s.(closed := true), "Tunnel closed")
  }

  class Requests {
    const variant: Variant
    var pendingRequests: set<ReqId>
    var promises: map<ReqId, Promise>
    var closed: bool
    ghost var stranded: set<ReqId>

    ghost function View(): State
      reads this
    {
      State(pendingRequests, promises, closed, stranded)
    }

    /** Who is unsettled is in the table or was stranded: see `Consistent`. Every method keeps this. */
    ghost predicate Valid()
      reads this
    {
      Consistent(variant, View())
    }

    constructor (v: Variant)
      ensures View() == State({}, map[], false, {}) && variant == v && Valid()
    {
      variant := v;
      pendingRequests, promises, closed, stranded := {}, map[], false, {};
    }

    /** `fetch` from its `new Promise` on; `sendOk` is false where `send` throws. */
    method Fetch(id: ReqId, sendOk: bool)
      modifies this
      ensures View() == AfterFetch(variant, old(View()), id, sendOk)
      ensures old(Valid()) && id !in old(promises) ==> Valid()
      ensures Unsettled(View(), id) <==> sendOk
      ensures promises == old(promises)[id := if sendOk then Pending else Rejected("send failed")]
      ensures id in pendingRequests <==> sendOk || variant.Page?
      ensures forall k :: k != id ==> (k in pendingRequests <==> k in old(pendingRequests))
    {
      promises := promises[id := Pending];
      pendingRequests := pendingRequests + {id};
      if !sendOk {
        if variant.ServiceWorker? {
          pendingRequests := pendingRequests - {id};
        }
        promises := promises[id := Rejected("send failed")];
      }
    }

    method HandleTunnelResponse(r: Response)
      modifies this
      ensures View() == AfterResponse(old(View()), r)
      ensures old(Valid()) ==> Valid()
      ensures forall id :: id in old(promises) && !(id == r.id && id in old(pendingRequests)) ==>
        id in promises && promises[id] == old(promises)[id]
      ensures pendingRequests == old(pendingRequests) - {r.id}
      ensures Waits(old(View()), r.id) ==>
        && (r.error != "" ==> promises == old(promises)[r.id := Rejected(r.error)])
        && (r.error == "" && Acceptable(r) ==>
              promises == old(promises)[r.id := Resolved(r.status, if r.status == 204 then None else r.body)])
        && (r.error == "" && !Acceptable(r) ==> promises == old(promises))
      ensures !Waits(old(View()), r.id) ==> promises == old(promises)
    {
      if r.id !in pendingRequests {
        return;
      }
      pendingRequests := pendingRequests - {r.id};
      if r.error != "" {
        promises := Settle(promises, r.id, Rejected(r.error));
        return;
      }
      if !Constructible(r) {
        if r.id in promises && promises[r.id].Pending? {
          stranded := stranded + {r.id};
        }
        return;
      }
      promises := Settle(promises, r.id, Resolved(r.status, GivenBody(r)));
    }

    method Timeout(id: ReqId)
      modifies this
      ensures View() == AfterTimeout(old(View()), id)
      ensures old(Valid()) ==> Valid()
      ensures id !in old(pendingRequests) ==> View() == old(View())
      ensures forall k ::
        Unsettled(View(), k) <==> Unsettled(old(View()), k) && !(k == id && id in old(pendingRequests))
      ensures pendingRequests == old(pendingRequests) - {id}
      ensures promises
           == if Waits(old(View()), id) then old(promises)[id := Rejected("Request timeout")] else old(promises)
    {
      if id in pendingRequests {
        pendingRequests := pendingRequests - {id};
        promises := Settle(promises, id, Rejected("Request timeout"));
      }
    }

    /** The loop over the table in `onclose` and `close`, in any order. */
    method RejectAll(reason: string)
      modifies this`pendingRequests, this`promises
      ensures View() == RejectTable(old(View()), reason)
      ensures old(Valid()) ==> Valid()
      ensures forall id :: Unsettled(View(), id) <==> Unsettled(old(View()), id) && id !in old(pendingRequests)
      ensures pendingRequests == {} && promises.Keys == old(promises).Keys
      ensures forall id :: id in promises ==>
        promises[id] == if Waits(old(View()), id) then Rejected(reason) else old(promises)[id]
    {
      var todo := pendingRequests;
      while todo != {}
        invariant todo <= pendingRequests && pendingRequests == old(pendingRequests)
        invariant promises == SettleAll(old(promises), pendingRequests - todo, Rejected(reason))
        decreases todo
      {
        var id :| id in todo;
        assert pendingRequests - (todo - {id}) == pendingRequests - todo + {id};
        promises := Settle(promises, id, Rejected(reason));
        todo := todo - {id};
      }
      assert pendingRequests - todo == pendingRequests;
      pendingRequests := {};
    }

    method Close()
      modifies this
      ensures View() == AfterClose(old(View()))
      ensures old(Valid()) ==> Valid()
      ensures closed && (old(closed) ==> View() == old(View()))
      ensures !old(closed) ==>
        && pendingRequests == {} && promises.Keys == old(promises).Keys
        && forall id :: id in promises ==>
             promises[id] == if Waits(old(View()), id) then Rejected("Tunnel closed") else old(promises)[id]
    {
      if closed {
        return;
      }
      closed := true;
      RejectAll("Tunnel closed");
    }
  }

  /** The request is in the table and has no outcome yet. */
  predicate Waits(s: State, id: ReqId) {
    id in s.table && id in s.promises && s.promises[id] == Pending
  }

  /** A response that can be built: a 204 loses its body, a 205 or 304 must come without one. */
  predicate Acceptable(r: Response) {
    r.headersOk && 200 <= r.status && r.status <= 599 && (r.status == 205 || r.status == 304 ==> r.body == None)
  }

  // ---- whole runs ----

  datatype Step =
    | DoFetch(id: ReqId, sendOk: bool)
    | GetResponse(response: Response)
    | TimerFires(id: ReqId)
    | Disconnect
    | SocketError
    | CloseClient

  /** Request ids are fresh. */
  predicate Enabled(s: State, step: Step) {
    step.DoFetch? ==> step.id !in s.promises
  }

  function Next(v: Variant, s: State, step: Step): State {
    match step
    case DoFetch(id, ok) => AfterFetch(v, s, id, ok)
    case GetResponse(r) => AfterResponse(s, r)
    case TimerFires(id) => AfterTimeout(s, id)
    case Disconnect => RejectTable(s, "Tunnel disconnected")
    case SocketError => if v.ServiceWorker? then RejectTable(s, "WebSocket connection failed") else s
    case CloseClient => if v.Page? then AfterClose(s) else s
  }

  predicate ValidRun(v: Variant, s: State, run: seq<Step>)
    decreases |run|
  {
    run != [] ==> Enabled(s, run[0]) && ValidRun(v, Next(v, s, run[0]), run[1..])
  }

  function After(v: Variant, s: State, run: seq<Step>): State
    decreases |run|
  {
    if run == [] then s else After(v, Next(v, s, run[0]), run[1..])
  }

  const START := State({}, map[], false, {})

  predicate Unsettled(s: State, id: ReqId) {
    id in s.promises && s.promises[id].Pending?
  }

  /**
   The unsettled requests are those in the table and the stranded ones; in the service worker the table has nothing
   else.
   */
  ghost predicate Consistent(v: Variant, s: State) {
    && s.table <= s.promises.Keys && s.stranded !! s.table
    && (forall id :: Unsettled(s, id) ==> id in s.table || id in s.stranded)
    && (forall id :: id in s.stranded ==> Unsettled(s, id))
    && (v.ServiceWorker? ==> forall id :: id in s.table ==> Unsettled(s, id))
  }

  lemma {:induction false} ConsistentStep(v: Variant, s: State, step: Step)
    requires Consistent(v, s) && Enabled(s, step)
    ensures Consistent(v, Next(v, s, step))
  {
  }

  /** A settled promise keeps its outcome. */
  lemma {:induction false} SettledOnceStep(v: Variant, s: State, step: Step, id: ReqId)
    requires Enabled(s, step) && id in s.promises && !s.promises[id].Pending?
    ensures id in Next(v, s, step).promises && Next(v, s, step).promises[id] == s.promises[id]
  {
  }

  lemma {:induction false} ConsistentRun(v: Variant, s: State, run: seq<Step>)
    requires Consistent(v, s) && ValidRun(v, s, run)
    ensures Consistent(v, After(v, s, run))
    decreases |run|
  {
    if run != [] {
      ConsistentStep(v, s, run[0]);
      ConsistentRun(v, Next(v, s, run[0]), run[1..]);
    }
  }

  lemma {:induction false} SettledOnce(v: Variant, s: State, run: seq<Step>, id: ReqId)
    requires ValidRun(v, s, run) && id in s.promises && !s.promises[id].Pending?
    ensures id in After(v, s, run).promises && After(v, s, run).promises[id] == s.promises[id]
    decreases |run|
  {
    if run != [] {
      SettledOnceStep(v, s, run[0], id);
      SettledOnce(v, Next(v, s, run[0]), run[1..], id);
    }
  }

  /** The step gives a request that waits the outcome `p`. */
  predicate Gives(v: Variant, s: State, step: Step, id: ReqId, p: Promise) {
    match step
    case DoFetch(i, ok) => i == id && !ok && p == Rejected("send failed")
    case GetResponse(r) =>
      && r.id == id && Waits(s, id)
      && if r.error != "" then p == Rejected(r.error)
         else Acceptable(r) && p == Resolved(r.status, if r.status == 204 then None else r.body)
    case TimerFires(i) => i == id && Waits(s, id) && p == Rejected("Request timeout")
    case Disconnect => Waits(s, id) && p == Rejected("Tunnel disconnected")
    case SocketError => v == ServiceWorker && Waits(s, id) && p == Rejected("WebSocket connection failed")
    case CloseClient => v == Page && !s.closed && Waits(s, id) && p == Rejected("Tunnel closed")
  }

  predicate GivenIn(v: Variant, s: State, run: seq<Step>, id: ReqId, p: Promise)
    decreases |run|
  {
    run != [] && (Gives(v, s, run[0], id, p) || GivenIn(v, Next(v, s, run[0]), run[1..], id, p))
  }

  predicate Has(s: State, id: ReqId, p: Promise) {
    id in s.promises && s.promises[id] == p
  }

  lemma {:induction false} OutcomeStep(v: Variant, s: State, step: Step, id: ReqId, p: Promise)
    requires Enabled(s, step) && p != Pending
    ensures Has(Next(v, s, step), id, p) <==> Has(s, id, p) || Gives(v, s, step, id, p)
  {
  }

  lemma {:induction false} OutcomeRun(v: Variant, s: State, run: seq<Step>, id: ReqId, p: Promise)
    requires ValidRun(v, s, run) && p != Pending
    ensures Has(After(v, s, run), id, p) <==> Has(s, id, p) || GivenIn(v, s, run, id, p)
    decreases |run|
  {
    if run != [] {
      hide Next, Gives, Has, Enabled;
      OutcomeStep(v, s, run[0], id, p);
      OutcomeRun(v, Next(v, s, run[0]), run[1..], id, p);
    }
  }

  /**
   Over all runs: a promise has an outcome if and only if some step of the run gave it that outcome while
   the request waited: its own response, error or timeout, a disconnect, or the close of the client.
   */
  lemma {:induction false} OutcomeIff(v: Variant, run: seq<Step>, id: ReqId, p: Promise)
    requires ValidRun(v, START, run) && p != Pending
    ensures id in After(v, START, run).promises && After(v, START, run).promises[id] == p
       <==> GivenIn(v, START, run, id, p)
  {
    OutcomeRun(v, START, run, id, p);
  }

  /** A response that is no error and that the `Response` constructor refuses. */
  predicate Refused(step: Step) {
    step.GetResponse? && step.response.error == "" && !Acceptable(step.response)
  }

  /** At some point of the run such a response arrives for `id` while it waits in the table. */
  predicate Strands(v: Variant, s: State, run: seq<Step>, id: ReqId)
    decreases |run|
  {
    run != [] &&
      (|| (Refused(run[0]) && run[0].response.id == id && id in s.table && Unsettled(s, id))
       || Strands(v, Next(v, s, run[0]), run[1..], id))
  }

  lemma {:induction false} StrandedHistory(v: Variant, s: State, run: seq<Step>, id: ReqId)
    ensures id in After(v, s, run).stranded <==> id in s.stranded || Strands(v, s, run, id)
    decreases |run|
  {
    if run != [] {
      StrandedHistory(v, Next(v, s, run[0]), run[1..], id);
    }
  }

  /**
   Over all runs: a request is unsettled and out of the table if and only if a response that the
   `Response` constructor refuses arrived while it waited. In the service worker the table holds
   nothing but unsettled requests.
   */
  lemma {:induction false} UnsettledAreInTableIff(v: Variant, run: seq<Step>, id: ReqId)
    requires ValidRun(v, START, run)
    ensures var s := After(v, START, run);
            && (Unsettled(s, id) && id !in s.table <==> Strands(v, START, run, id))
            && (v.ServiceWorker? && id in s.table ==> Unsettled(s, id))
  {
    ConsistentRun(v, START, run);
    StrandedHistory(v, START, run, id);
  }

  lemma {:induction false} NoneStrands(v: Variant, s: State, run: seq<Step>, id: ReqId)
    requires forall i :: 0 <= i < |run| ==> !Refused(run[i])
    ensures !Strands(v, s, run, id)
    decreases |run|
  {
    if run != [] {
      NoneStrands(v, Next(v, s, run[0]), run[1..], id);
    }
  }

  /**
   When the constructor accepts every response: what is unsettled is in the table, in the service
   worker the table is exactly the unsettled set, and a disconnect leaves nothing unsettled.
   */
  lemma {:induction false} AcceptedResponsesSettle(v: Variant, run: seq<Step>, id: ReqId)
    requires ValidRun(v, START, run) && forall i :: 0 <= i < |run| ==> !Refused(run[i])
    ensures var s := After(v, START, run);
            && (Unsettled(s, id) ==> id in s.table) && (v.ServiceWorker? ==> (Unsettled(s, id) <==> id in s.table))
            && !Unsettled(Next(v, s, Disconnect), id)
  {
    UnsettledAreInTableIff(v, run, id);
    NoneStrands(v, START, run, id);
    DisconnectSettlesAll(v, run, id);
  }

  /** A disconnect leaves unsettled only what such a response had stranded before it. */
  lemma {:induction false} DisconnectSettlesAll(v: Variant, run: seq<Step>, id: ReqId)
    requires ValidRun(v, START, run)
    ensures Unsettled(Next(v, After(v, START, run), Disconnect), id) <==> Strands(v, START, run, id)
  {
    ConsistentRun(v, START, run);
    StrandedHistory(v, START, run, id);
  }

  /** A response settles its own request and no other, exactly when it carries an error or can be constructed. */
  lemma {:induction false} ResponseSettlesIff(v: Variant, run: seq<Step>, r: Response, id: ReqId)
    requires ValidRun(v, START, run)
    ensures var s := After(v, START, run); var t := AfterResponse(s, r);
            Unsettled(s, id) && !Unsettled(t, id)
            <==> id == r.id && id in s.table && Unsettled(s, id) && (r.error != "" || Acceptable(r))
  {
    ConsistentRun(v, START, run);
  }

  /** A "304 Not Modified" with a body strands its request: the promise stays pending whatever happens later. */
  lemma {:induction false} NotModifiedStrands(v: Variant, id: ReqId, body: seq<byte>, later: seq<Step>)
    requires ValidRun(v, START, [DoFetch(id, true), GetResponse(Response(id, "", 304, Some(body), true))] + later)
    ensures var start := [DoFetch(id, true), GetResponse(Response(id, "", 304, Some(body), true))];
            Unsettled(After(v, START, start + later), id)
  {
    var a, b := DoFetch(id, true), GetResponse(Response(id, "", 304, Some(body), true));
    var run := [a, b] + later;
    assert run[1..] == [b] + later && run[1..][1..] == later;
    var s := Next(v, Next(v, START, a), b);
    assert s.stranded == {id};
    StrandedStays(v, s, later, id);
  }

  lemma {:induction false} StrandedStays(v: Variant, s: State, run: seq<Step>, id: ReqId)
    requires Consistent(v, s) && ValidRun(v, s, run) && id in s.stranded
    ensures Unsettled(After(v, s, run), id)
    decreases |run|
  {
    if run != [] {
      ConsistentStep(v, s, run[0]);
      StrandedStays(v, Next(v, s, run[0]), run[1..], id);
    }
  }
}
