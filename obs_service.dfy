/** The command gateway to OBS (src/services/obsService.js): the `ready` flag,
    the reconnect `attempt` counter with its exponential backoff, and the FIFO
    queue of HTTP requests that arrived while OBS was offline.

    Timers and library events are explicit method calls here: `Connect`
    returns the delay it schedules, `OnConnectTimer` is that timer firing
    with the outcome of `obs.connect`, `OnConnectionError` and
    `OnConnectionClosed` are the library's events, `OnQueueTimeout` is the
    30 s timer of one queued item and `OnHeartbeatTick` the 30 s heartbeat. */
module ObsService {
  import opened Values
  import opened Http
  import opened ObsWebSocket

  const BaseBackoff: nat := 2000
  const MaxBackoff: nat := 60000

  /** The message `callObs` rejects with while OBS is offline. */
  const NotConnected: string := "OBS not connected"

  // ---------------------------------------------------------------------
  // Reconnect backoff

  function Pow2(n: nat): (r: nat)
    ensures r >= 1
    ensures r > n
  {
    if n == 0 then 1 else 2 * Pow2(n - 1)
  }

  lemma {:induction false} Pow2Monotone(a: nat, b: nat)
    requires a <= b
    ensures Pow2(a) <= Pow2(b)
    decreases b
  {
    if a < b {
      Pow2Monotone(a, b - 1);
    }
  }

  /** `Math.min(baseBackoff * 2 ** attempt, maxBackoff)` */
  function BaseDelay(attempt: nat): (d: nat)
    ensures BaseBackoff <= d <= MaxBackoff
  {
    if BaseBackoff * Pow2(attempt) < MaxBackoff then BaseBackoff * Pow2(attempt) else MaxBackoff
  }

  /** The delay grows with the attempt counter ... */
  lemma BaseDelayMonotone(a: nat, b: nat)
    requires a <= b
    ensures BaseDelay(a) <= BaseDelay(b)
  {
    Pow2Monotone(a, b);
  }

  /** ... doubling from 2 s and reaching the 60 s ceiling at the fifth failure. */
  lemma BaseDelaySchedule(attempt: nat)
    ensures attempt <= 4 ==> BaseDelay(attempt) == BaseBackoff * Pow2(attempt)
    ensures attempt >= 5 ==> BaseDelay(attempt) == MaxBackoff
    ensures BaseDelay(0) == 2000 && BaseDelay(1) == 4000 && BaseDelay(4) == 32000
  {
    if attempt >= 5 {
      Pow2Monotone(5, attempt);
    } else {
      assert Pow2(4) == 16;
      Pow2Monotone(attempt, 4);
    }
  }

  /** `delay * (0.9 + Math.random() * 0.2)` with the random draw `r` in [0, 1). */
  function ReconnectDelay(attempt: nat, r: real): (w: real)
    requires 0.0 <= r < 1.0
    ensures 0.9 * (BaseDelay(attempt) as real) <= w < 1.1 * (BaseDelay(attempt) as real)
    ensures 1800.0 <= w < 66000.0
  {
    var d := BaseDelay(attempt) as real;
    var w := d * (0.9 + r * 0.2);
    JitterBounds(d, r, w);
    w
  }

  lemma JitterBounds(d: real, r: real, w: real)
    requires 2000.0 <= d <= 60000.0 && 0.0 <= r < 1.0 && w == d * (0.9 + r * 0.2)
    ensures 0.9 * d <= w < 1.1 * d
    ensures 1800.0 <= w < 66000.0
  {
    assert d * (0.9 + r * 0.2) == 0.9 * d + 0.2 * (d * r);
    assert 0.0 <= d * r < d * 1.0;
  }

  // ---------------------------------------------------------------------
  // Requests and the queue

  /** The body of a command request: `{ requestType, requestData }`, each of
      which may be absent. */
  datatype Request = Request(requestType: Option<string>, requestData: Option<Json>)

  /** `callObs(requestType, requestData = {})`: absent data is sent as `{}`. */
  function DataOrEmpty(data: Option<Json>): Json {
    if data.Some? then data.value else EmptyObject
  }

  /** `await this.obs.call(...) || {}`: a falsy result becomes `{}`. */
  function NonFalsy(r: PeerReply): (r': PeerReply)
    ensures r'.Answered? ==> !Falsy(r'.result)
    ensures r.Failed? ==> r' == r
    ensures r.Answered? && !Falsy(r.result) ==> r' == r
    ensures r.Answered? && Falsy(r.result) ==> r' == Answered(EmptyObject)
  {
    if r.Answered? && Falsy(r.result) then Answered(EmptyObject) else r
  }

  /** The reply a command gets: `res.json(result)` or `500 { error }`. */
  function CommandReply(r: PeerReply): Reply {
    match r
    case Answered(j) => Reply(200, JsonBody(j))
    case Failed(m) => Reply(500, JsonBody(ErrorJson(m)))
  }

  const RequestTypeRequired: Reply := Reply(400, JsonBody(ErrorJson("requestType is required")))
  const QueueTimedOut: Reply := Reply(408, JsonBody(ErrorJson("Request timeout while OBS was connecting")))

  /** One entry of the queue: `{ req, res, timestamp }`. Entries are compared
      by identity, as `findIndex(item => item === queueItem)` does. */
  class QueueItem {
    const req: Request
    const res: Response
    const timestamp: int

    constructor(req: Request, res: Response, timestamp: int)
      ensures this.req == req && this.res == res && this.timestamp == timestamp
    {
      this.req := req;
      this.res := res;
      this.timestamp := timestamp;
    }
  }

  ghost function ResponsesOf(items: seq<QueueItem>): set<Response> {
    set i | 0 <= i < |items| :: items[i].res
  }

  /** Every HTTP exchange is queued at most once. */
  ghost predicate DistinctResponses(items: seq<QueueItem>) {
    forall i, j :: 0 <= i < j < |items| ==> items[i].res != items[j].res
  }

  /** Would `handleQueuedRequest` call OBS for this item? */
  predicate WillDispatch(item: QueueItem)
    reads item.res
  {
    item.res.reply == None && TruthyString(item.req.requestType)
  }

  function CallOf(req: Request): Call
    requires TruthyString(req.requestType)
  {
    Call(req.requestType.value, DataOrEmpty(req.requestData))
  }

  /** The answer `handleQueuedRequest` leaves on a queued exchange whose reply
      was `reply` when its turn came, OBS answering its call, if any, as the
      `k`-th: an earlier answer stays, a missing request type gets 400, and
      otherwise the call's result or error is sent. */
  function FlushReply(req: Request, reply: Option<Reply>, ready: bool, answer: (nat, Call) -> PeerReply, k: nat): (r: Option<Reply>)
    ensures r.Some?
    ensures reply.Some? ==> r == reply
    ensures reply.None? && !TruthyString(req.requestType) ==> r == Some(RequestTypeRequired)
    ensures reply.None? && TruthyString(req.requestType) && !ready ==>
              r == Some(Reply(500, JsonBody(ErrorJson(NotConnected))))
    ensures reply.None? && TruthyString(req.requestType) && ready ==>
              (answer(k, CallOf(req)).Failed? <==> r.value.status == 500) &&
              (r.value.status == 200 ==> r.value.body == JsonBody(NonFalsy(answer(k, CallOf(req))).result))
    ensures reply.None? && TruthyString(req.requestType) && ready && answer(k, CallOf(req)).Answered? ==>
              r == Some(Reply(200, JsonBody(NonFalsy(answer(k, CallOf(req))).result)))
    ensures reply.None? && TruthyString(req.requestType) && ready && answer(k, CallOf(req)).Failed? ==>
              r == Some(Reply(500, JsonBody(ErrorJson(answer(k, CallOf(req)).message))))
  {
    if reply.Some? then reply
    else if !TruthyString(req.requestType) then Some(RequestTypeRequired)
    else if !ready then Some(CommandReply(Failed(NotConnected)))
    else Some(CommandReply(NonFalsy(answer(k, CallOf(req)))))
  }

  /** A queue entry as a value: its request and its exchange's reply so far. */
  datatype Pending = Pending(req: Request, reply: Option<Reply>)

  /** The entries of a queue, as they stand. */
  ghost function Entries(items: seq<QueueItem>): (es: seq<Pending>)
    reads ResponsesOf(items)
    ensures |es| == |items|
    ensures forall i :: 0 <= i < |items| ==> es[i] == Pending(items[i].req, items[i].res.reply)
  {
    seq(|items|, i requires 0 <= i < |items| reads ResponsesOf(items) => Pending(items[i].req, items[i].res.reply))
  }

  /** The OBS call handling this entry makes while connected: one for an
      unanswered exchange with a request type, none otherwise. */
  function DispatchedCall(p: Pending): seq<Call> {
    if p.reply.None? && TruthyString(p.req.requestType) then [CallOf(p.req)] else []
  }

  /** The OBS calls a flush of `entries` makes while connected, in queue order. */
  function FlushCalls(entries: seq<Pending>): seq<Call>
    decreases |entries|
  {
    if entries == [] then []
    else FlushCalls(entries[..|entries| - 1]) + DispatchedCall(entries[|entries| - 1])
  }

  /** The answer a flush leaves on entry `i` when OBS answers the first call
      it makes as the `n`-th: the entry's call, if any, comes after those of
      the entries before it. */
  function FlushedReply(entries: seq<Pending>, i: nat, ready: bool, answer: (nat, Call) -> PeerReply, n: nat): Option<Reply>
    requires i < |entries|
  {
    FlushReply(entries[i].req, entries[i].reply, ready, answer, n + |FlushCalls(entries[..i])|)
  }

  /** Flushing one more entry appends that entry's call, if any. */
  lemma FlushCallsStep(entries: seq<Pending>, k: nat)
    requires k < |entries|
    ensures FlushCalls(entries[..k + 1]) == FlushCalls(entries[..k]) + DispatchedCall(entries[k])
  {
    assert entries[..k + 1][..k] == entries[..k];
  }

  /** The bookkeeping of one more flush turn: the queue loses its head, the
      head joins the handed-on entries and its call, if any, the log. */
  lemma FlushProgress(q0: seq<QueueItem>, entries: seq<Pending>, k: nat, calls0: seq<Call>, dispatched0: seq<QueueItem>,
                      dispatched: seq<QueueItem>, calls: seq<Call>, ready: bool)
    requires k < |q0| && k < |entries|
    requires dispatched == dispatched0 + q0[..k]
    requires calls == calls0 + (if ready then FlushCalls(entries[..k]) else [])
    ensures dispatched + [q0[k]] == dispatched0 + q0[..k + 1]
    ensures ready ==> calls + DispatchedCall(entries[k]) == calls0 + FlushCalls(entries[..k + 1])
    ensures !ready ==> calls == calls0 + []
    ensures q0[k..][1..] == q0[k + 1..]
  {
    assert q0[..k + 1] == q0[..k] + [q0[k]];
    FlushCallsStep(entries, k);
    AppendAssociative(calls0, FlushCalls(entries[..k]), DispatchedCall(entries[k]));
    AppendAssociative(dispatched0, q0[..k], [q0[k]]);
  }

  /** Entry `k` is answered as the call after those of the entries before it. */
  lemma FlushedReplyStep(entries: seq<Pending>, k: nat, ready: bool, answer: (nat, Call) -> PeerReply, n0: nat, n: nat)
    requires k < |entries|
    requires ready ==> n == n0 + |FlushCalls(entries[..k])|
    ensures FlushReply(entries[k].req, entries[k].reply, ready, answer, n) == FlushedReply(entries, k, ready, answer, n0)
  {
  }

  /** Every queued HTTP exchange has already been answered. */
  ghost predicate AllAnswered(items: seq<QueueItem>)
    reads ResponsesOf(items)
  {
    forall i :: 0 <= i < |items| ==> items[i].res.reply.Some?
  }

  /** Flushing entries whose every exchange was already answered calls OBS for nothing. */
  lemma {:induction false} AnsweredQueueMakesNoCalls(entries: seq<Pending>)
    requires forall i :: 0 <= i < |entries| ==> entries[i].reply.Some?
    ensures FlushCalls(entries) == []
    decreases |entries|
  {
    if entries != [] {
      var init := entries[..|entries| - 1];
      assert forall i :: 0 <= i < |init| ==> init[i] == entries[i];
      AnsweredQueueMakesNoCalls(init);
    }
  }

  /** The first position of `target` in `items`, or -1: `findIndex(item => item === target)`. */
  method FindIndex(items: seq<QueueItem>, target: QueueItem) returns (index: int)
    ensures -1 <= index < |items|
    ensures index == -1 <==> target !in items
    ensures 0 <= index ==> items[index] == target && target !in items[..index]
  {
    index := 0;
    while index < |items|
      invariant 0 <= index <= |items|
      invariant target !in items[..index]
    {
      if items[index] == target {
        return;
      }
      index := index + 1;
    }
    assert items[..index] == items;
    index := -1;
  }

  // ---------------------------------------------------------------------
  // The service

  class ObsService {
    const obs: Peer
    var ready: bool
    var attempt: nat
    var queue: seq<QueueItem>
    /** Every queue entry handed to `handleQueuedRequest`, in order. */
    ghost var dispatched: seq<QueueItem>

    ghost predicate Valid()
      reads this
    {
      DistinctResponses(queue)
    }

    constructor(answer: (nat, Call) -> PeerReply)
      ensures Valid() && fresh(obs)
      ensures !ready && attempt == 0 && queue == [] && dispatched == []
      ensures obs.calls == [] && obs.closeRequests == 0 && obs.answer == answer
    {
      obs := new Peer(answer);
      ready := false;
      attempt := 0;
      queue := [];
      dispatched := [];
    }

    /** What `callObs` settles with, in the current state. */
    function Outcome(c: Call): PeerReply
      reads this, obs
    {
      if !ready then Failed(NotConnected) else NonFalsy(obs.answer(|obs.calls|, c))
    }

    /** `isReady()` */
    method IsReady() returns (r: bool)
      ensures r == ready
    {
      r := ready;
    }

    /** `connect()`: computes the jittered delay after which it tries to
        connect; the attempt itself is `OnConnectTimer`. */
    method Connect(r: real) returns (wait: real)
      requires 0.0 <= r < 1.0
      ensures wait == ReconnectDelay(attempt, r)
      ensures 0.9 * (BaseDelay(attempt) as real) <= wait < 1.1 * (BaseDelay(attempt) as real)
    {
      var delay := BaseDelay(attempt);
      wait := delay as real * (0.9 + r * 0.2);
    }

    /** The connect timer firing; `connected` is whether `obs.connect` succeeded.
        On success the counter is reset and the queue flushed; a failure is
        only logged (the library's `ConnectionError` event counts it). */
    method OnConnectTimer(connected: bool)
      requires Valid()
      modifies this, obs, ResponsesOf(queue)
      ensures Valid()
      ensures connected ==> ready && attempt == 0 && queue == []
      ensures connected ==> dispatched == old(dispatched) + old(queue)
      ensures connected ==> obs.calls == old(obs.calls) + FlushCalls(old(Entries(queue)))
      ensures !connected ==> ready == old(ready) && attempt == old(attempt) && queue == old(queue)
      ensures !connected ==> dispatched == old(dispatched) && unchanged(obs)
      ensures forall i :: 0 <= i < |old(queue)| && old(queue[i].res.reply).Some? ==>
                old(queue)[i].res.reply == old(queue[i].res.reply)
      ensures !connected ==> forall i :: 0 <= i < |old(queue)| ==>
                old(queue)[i].res.reply == old(queue[i].res.reply)
      ensures connected ==> forall i :: 0 <= i < |old(queue)| ==> old(queue)[i].res.reply.Some?
      ensures connected ==> forall i :: 0 <= i < |old(queue)| ==>
                old(queue)[i].res.reply == FlushedReply(old(Entries(queue)), i, true, obs.answer, |old(obs.calls)|)
      ensures obs.closeRequests == old(obs.closeRequests)
    {
      if connected {
        ready := true;
        attempt := 0;
        FlushQueue();
      }
    }

    /** The library's `ConnectionError` event. */
    method OnConnectionError()
      modifies this
      ensures attempt == old(attempt) + 1
      ensures ready == old(ready) && queue == old(queue) && dispatched == old(dispatched)
    {
      attempt := attempt + 1;
    }

    /** The library's `ConnectionClosed` event: go offline and reconnect. */
    method OnConnectionClosed(r: real) returns (wait: real)
      requires 0.0 <= r < 1.0
      modifies this
      ensures !ready
      ensures attempt == old(attempt) && queue == old(queue) && dispatched == old(dispatched)
      ensures wait == ReconnectDelay(attempt, r)
    {
      ready := false;
      wait := Connect(r);
    }

    /** The 30 s heartbeat: a `GetVersion` call while ready, whose failure is only logged. */
    method OnHeartbeatTick()
      modifies obs
      ensures ready ==> obs.calls == old(obs.calls) + [Call("GetVersion", JNull)]
      ensures !ready ==> obs.calls == old(obs.calls)
      ensures obs.closeRequests == old(obs.closeRequests)
    {
      if ready {
        var _ := obs.Request(Call("GetVersion", JNull));
      }
    }

    /** `flushQueue()`: hands every queued entry, front to back, to
        `handleQueuedRequest` and leaves the queue empty. */
    method FlushQueue()
      requires Valid()
      modifies this, obs, ResponsesOf(queue)
      ensures Valid() && queue == []
      ensures ready == old(ready) && attempt == old(attempt)
      ensures dispatched == old(dispatched) + old(queue)
      ensures ready ==> obs.calls == old(obs.calls) + FlushCalls(old(Entries(queue)))
      ensures !ready ==> obs.calls == old(obs.calls)
      ensures obs.closeRequests == old(obs.closeRequests)
      ensures forall i :: 0 <= i < |old(queue)| ==> old(queue)[i].res.reply.Some?
      ensures forall i :: 0 <= i < |old(queue)| && old(queue[i].res.reply).Some? ==>
                old(queue)[i].res.reply == old(queue[i].res.reply)
      ensures forall i :: 0 <= i < |old(queue)| ==>
                old(queue)[i].res.reply == FlushedReply(old(Entries(queue)), i, ready, obs.answer, |old(obs.calls)|)
    {
      ghost var q0, entries, calls0, dispatched0 := queue, Entries(queue), obs.calls, dispatched;
      ghost var k := 0;
      assert entries[..0] == [] && q0[..0] == [];
      while queue != []
        invariant Flushing(q0, entries, k, calls0, dispatched0)
        invariant ready == old(ready) && attempt == old(attempt)
        invariant obs.closeRequests == old(obs.closeRequests)
        decreases |q0| - k
      {
        FlushNext(q0, entries, k, calls0, dispatched0);
        k := k + 1;
      }
      assert k == |q0|;
      assert q0[..k] == q0 && entries[..k] == entries;
    }

    /** Where a flush of the queue `q0` (snapshot `entries`) stands after
        `k` turns, having started with `calls0` sent and `dispatched0`
        handed on: the first `k` exchanges carry the answers the flush gives
        them, the rest still carry their own. */
    ghost predicate Flushing(q0: seq<QueueItem>, entries: seq<Pending>, k: nat, calls0: seq<Call>, dispatched0: seq<QueueItem>)
      reads this, obs, ResponsesOf(q0)
    {
      Valid() && k <= |q0| && queue == q0[k..] && DistinctResponses(q0) &&
      |entries| == |q0| && (forall j :: 0 <= j < |q0| ==> entries[j].req == q0[j].req) &&
      dispatched == dispatched0 + q0[..k] &&
      obs.calls == calls0 + (if ready then FlushCalls(entries[..k]) else []) &&
      (forall j :: 0 <= j < k ==> q0[j].res.reply == FlushedReply(entries, j, ready, obs.answer, |calls0|)) &&
      (forall j :: k <= j < |q0| ==> q0[j].res.reply == entries[j].reply)
    }

    /** A turn of the flush loop, told against the flush's starting point. */
    method FlushNext(ghost q0: seq<QueueItem>, ghost entries: seq<Pending>, ghost k: nat,
                     ghost calls0: seq<Call>, ghost dispatched0: seq<QueueItem>)
      requires Flushing(q0, entries, k, calls0, dispatched0) && k < |q0|
      modifies this, obs, q0[k].res
      ensures Flushing(q0, entries, k + 1, calls0, dispatched0)
      ensures ready == old(ready) && attempt == old(attempt)
      ensures obs.closeRequests == old(obs.closeRequests)
    {
      assert queue[0] == q0[k];
      assert forall j :: 0 <= j < |q0| && j != k ==> q0[j].res != q0[k].res;
      ghost var before := obs.calls;
      FlushProgress(q0, entries, k, calls0, dispatched0, dispatched, obs.calls, ready);
      DispatchFirst();
      FlushedReplyStep(entries, k, ready, obs.answer, |calls0|, |before|);
    }

    /** One turn of the loop in `flushQueue`: `shift` the head entry and
        hand it to `handleQueuedRequest`. */
    method DispatchFirst()
      requires Valid() && queue != []
      modifies this, obs, queue[0].res
      ensures Valid() && queue == old(queue)[1..]
      ensures dispatched == old(dispatched) + [old(queue)[0]]
      ensures ready == old(ready) && attempt == old(attempt)
      ensures ready && old(WillDispatch(queue[0])) ==> obs.calls == old(obs.calls) + [CallOf(old(queue)[0].req)]
      ensures !(ready && old(WillDispatch(queue[0]))) ==> obs.calls == old(obs.calls)
      ensures obs.closeRequests == old(obs.closeRequests)
      ensures old(queue)[0].res.reply ==
              FlushReply(old(queue)[0].req, old(queue[0].res.reply), ready, obs.answer, |old(obs.calls)|)
    {
      var item := Shift();
      HandleQueuedRequest(item);
    }

    /** `this.queue.shift()`, recorded as dispatched. */
    method Shift() returns (item: QueueItem)
      requires Valid() && queue != []
      modifies this
      ensures Valid() && item == old(queue)[0] && queue == old(queue)[1..]
      ensures item.res !in ResponsesOf(queue)
      ensures dispatched == old(dispatched) + [item]
      ensures ready == old(ready) && attempt == old(attempt)
    {
      item := queue[0];
      queue := queue[1..];
      dispatched := dispatched + [item];
      assert item.res !in ResponsesOf(queue) by {
        forall i | 0 <= i < |queue| ensures queue[i].res != item.res {
          assert queue[i] == old(queue)[i + 1];
        }
      }
    }

    /** `handleQueuedRequest(req, res)`: nothing if the exchange was already
        answered; 400 without a request type; otherwise the OBS result or a 500. */
    method HandleQueuedRequest(item: QueueItem)
      modifies obs, item.res
      ensures old(item.res.reply).Some? ==> item.res.reply == old(item.res.reply)
      ensures old(item.res.reply) == None && !TruthyString(item.req.requestType) ==>
                item.res.reply == Some(RequestTypeRequired)
      ensures old(WillDispatch(item)) ==>
                item.res.reply == Some(CommandReply(old(Outcome(CallOf(item.req)))))
      ensures ready && old(WillDispatch(item)) ==> obs.calls == old(obs.calls) + [CallOf(item.req)]
      ensures !(ready && old(WillDispatch(item))) ==> obs.calls == old(obs.calls)
      ensures obs.closeRequests == old(obs.closeRequests)
      ensures item.res.reply == FlushReply(item.req, old(item.res.reply), ready, obs.answer, |old(obs.calls)|)
    {
      if item.res.HeadersSent() {
        return;
      }
      if !TruthyString(item.req.requestType) {
        item.res.Send(RequestTypeRequired);
        return;
      }
      var r := CallObs(item.req.requestType.value, item.req.requestData);
      if r.Answered? {
        item.res.Send(Reply(200, JsonBody(r.result)));
      } else if !item.res.HeadersSent() {
        item.res.Send(Reply(500, JsonBody(ErrorJson(r.message))));
      }
    }

    /** `queueRequest(req, res)`: appends one entry at the tail. */
    method QueueRequest(req: Request, res: Response, now: int) returns (item: QueueItem)
      requires Valid() && res !in ResponsesOf(queue)
      modifies this
      ensures Valid() && fresh(item)
      ensures item.req == req && item.res == res && item.timestamp == now
      ensures queue == old(queue) + [item]
      ensures ready == old(ready) && attempt == old(attempt) && dispatched == old(dispatched)
    {
      item := new QueueItem(req, res, now);
      assert forall i :: 0 <= i < |queue| ==> queue[i].res != res;
      queue := queue + [item];
    }

    /** The 30 s timer of `item`: if the entry is still queued and its exchange
        unanswered, remove exactly that entry and answer 408. */
    method OnQueueTimeout(item: QueueItem) returns (removed: bool)
      requires Valid()
      modifies this, item.res
      ensures Valid()
      ensures removed <==> item in old(queue) && old(item.res.reply) == None
      ensures removed ==> exists i :: 0 <= i < |old(queue)| && old(queue)[i] == item &&
                            queue == old(queue)[..i] + old(queue)[i + 1..]
      ensures removed ==> item.res.reply == Some(QueueTimedOut)
      ensures !removed ==> queue == old(queue) && item.res.reply == old(item.res.reply)
      ensures ready == old(ready) && attempt == old(attempt) && dispatched == old(dispatched)
    {
      var index := FindIndex(queue, item);
      removed := index != -1 && !item.res.HeadersSent();
      if removed {
        ghost var q := queue;
        queue := queue[..index] + queue[index + 1..];
        assert forall i :: 0 <= i < |queue| ==> queue[i] == if i < index then q[i] else q[i + 1];
        item.res.Send(QueueTimedOut);
      }
    }

    /** `callObs(requestType, requestData)`: fails fast while offline. */
    method CallObs(requestType: string, requestData: Option<Json>) returns (r: PeerReply)
      modifies obs
      ensures r == old(Outcome(Call(requestType, DataOrEmpty(requestData))))
      ensures !ready ==> r == Failed(NotConnected) && obs.calls == old(obs.calls)
      ensures ready ==> obs.calls == old(obs.calls) + [Call(requestType, DataOrEmpty(requestData))]
      ensures obs.closeRequests == old(obs.closeRequests)
    {
      if !ready {
        return Failed(NotConnected);
      }
      var reply := obs.Request(Call(requestType, DataOrEmpty(requestData)));
      r := NonFalsy(reply);
    }

    /** `disconnect()`: closes the socket if ready; a no-op otherwise. */
    method Disconnect()
      modifies this, obs
      ensures !ready
      ensures attempt == old(attempt) && queue == old(queue) && dispatched == old(dispatched)
      ensures obs.calls == old(obs.calls)
      ensures old(ready) ==> obs.closeRequests == old(obs.closeRequests) + 1
      ensures !old(ready) ==> unchanged(this, obs)
    {
      if ready {
        obs.Close();
        ready := false;
      }
    }
  }
}
