/** The event poller (src/services/chaturbateService.js): a long-poll loop
    that keeps a cursor `lastEventId`, forwards every event of a batch to the
    webhook client, follows `nextUrl` pagination and backs off on errors.

    The GET itself is not performed: each iteration receives the response it
    would have got. `PollStep` is the pure summary of one iteration; the
    class's methods run it step by step, as the source does. */
module ChaturbateService {
  import opened Values
  import opened N8nClient

  datatype Event = Event(id: int, fields: map<string, Json>)

  /** The event as it is posted to the webhook: its fields and its `id`. */
  function EventJson(e: Event): Json {
    JObj(e.fields["id" := JNum(e.id as real)])
  }

  /** How one `axios.get(eventsUrl, { params: { since } })` settles. */
  datatype PollResponse =
    | PollFailed(message: string)
    | Polled(events: Option<seq<Event>>, nextUrl: Option<string>)

  const IdleSleepMs: real := 10000.0

  /** `response.data.events || []` */
  function Batch(response: PollResponse): seq<Event>
    requires response.Polled?
  {
    if response.events.Some? then response.events.value else []
  }

  /** The cursor after `lastEventId = Math.max(lastEventId, event.id)` for
      each event in turn: the largest of the old cursor and every id. */
  function CursorAfter(cursor: int, events: seq<Event>): (c: int)
    ensures c >= cursor
    ensures forall i :: 0 <= i < |events| ==> events[i].id <= c
    ensures c == cursor || exists i :: 0 <= i < |events| && c == events[i].id
    decreases |events|
  {
    if events == [] then cursor
    else Max(CursorAfter(cursor, events[..|events| - 1]), events[|events| - 1].id)
  }

  lemma {:induction false} CursorAfterAppend(cursor: int, a: seq<Event>, b: seq<Event>)
    ensures CursorAfter(cursor, a + b) == CursorAfter(CursorAfter(cursor, a), b)
    decreases |b|
  {
    if b == [] {
      assert a + b == a;
    } else {
      assert (a + b)[..|a + b| - 1] == a + b[..|b| - 1];
      CursorAfterAppend(cursor, a, b[..|b| - 1]);
    }
  }

  /** The outcome of one iteration of the loop in `pollEvents`. A `sleepMs`
      of 0 means the next iteration starts at once. */
  datatype Step = Step(cursor: int, forwarded: seq<Event>, nextUrl: string, sleepMs: real)

  /** One iteration from cursor `cursor` and target `url`, given the
      response and the random draw `r` in [0, 1) used by the error backoff. */
  function PollStep(cursor: int, url: string, response: PollResponse, r: real): (s: Step)
    requires 0.0 <= r < 1.0
    ensures s.cursor >= cursor
    ensures response.PollFailed? ==>
              s.cursor == cursor && s.forwarded == [] && s.nextUrl == url && 2000.0 <= s.sleepMs < 5000.0
    ensures response.Polled? ==>
              s.forwarded == Batch(response) && s.cursor == CursorAfter(cursor, s.forwarded)
    ensures response.Polled? && response.events.None? ==> s.cursor == cursor && s.forwarded == []
    ensures response.Polled? && TruthyString(response.nextUrl) ==>
              s.nextUrl == response.nextUrl.value && s.sleepMs == 0.0
    ensures response.Polled? && !TruthyString(response.nextUrl) ==>
              s.nextUrl == url && s.sleepMs == IdleSleepMs
  {
    match response
    case PollFailed(_) => Step(cursor, [], url, 2000.0 + r * 3000.0)
    case Polled(_, next) =>
      var batch := Batch(response);
      Step(CursorAfter(cursor, batch), batch,
           if TruthyString(next) then next.value else url,
           if TruthyString(next) then 0.0 else IdleSleepMs)
  }

  /** A batch from cursor 0 with ids 5, 3, 8 ends at cursor 8 and forwards
      the three events in the order received. */
  lemma ExampleBatch(url: string, f: map<string, Json>)
    ensures var batch := [Event(5, f), Event(3, f), Event(8, f)];
      var s := PollStep(0, url, Polled(Some(batch), None), 0.0);
      s.cursor == 8 && s.forwarded == batch && s.nextUrl == url && s.sleepMs == IdleSleepMs
  {
    var batch := [Event(5, f), Event(3, f), Event(8, f)];
    assert batch[..2][..1] == [Event(5, f)];
    assert batch[..2] == [Event(5, f), Event(3, f)];
  }

  /** What the loop has done after some iterations: the cursor, the next
      target, the events forwarded, and each GET sent as (URL, `since`). */
  datatype Progress = Progress(cursor: int, url: string, forwarded: seq<Event>, gets: seq<(string, int)>)

  /** One scripted iteration: the response the GET gets, the random draw of
      its backoff, and whether `disconnect()` is called while it runs. */
  datatype Tick = Tick(response: PollResponse, jitter: Draw, stopRequested: bool)

  /** A value of `Math.random()`. */
  type Draw = r: real | 0.0 <= r < 1.0

  /** The iterations `ticks` run one after the other from `cursor` and `url`. */
  ghost function Replay(cursor: int, url: string, ticks: seq<Tick>): Progress
    decreases |ticks|
  {
    if ticks == [] then Progress(cursor, url, [], [])
    else
      var p := Replay(cursor, url, ticks[..|ticks| - 1]);
      var t := ticks[|ticks| - 1];
      var s := PollStep(p.cursor, p.url, t.response, t.jitter);
      Progress(s.cursor, s.nextUrl, p.forwarded + s.forwarded, p.gets + [(p.url, p.cursor)])
  }

  /** The cursor never decreases across iterations, failed ones included,
      and it always equals the largest id ever forwarded (or its start). */
  lemma {:induction false} ReplayCursor(cursor: int, url: string, ticks: seq<Tick>)
    ensures Replay(cursor, url, ticks).cursor >= cursor
    ensures Replay(cursor, url, ticks).cursor == CursorAfter(cursor, Replay(cursor, url, ticks).forwarded)
    decreases |ticks|
  {
    if ticks != [] {
      var front := ticks[..|ticks| - 1];
      var p := Replay(cursor, url, front);
      var t := ticks[|ticks| - 1];
      ReplayCursor(cursor, url, front);
      CursorAfterAppend(cursor, p.forwarded, PollStep(p.cursor, p.url, t.response, t.jitter).forwarded);
    }
  }

  /** The `i`-th GET of a run is sent to the URL reached after the first `i`
      iterations, with `since` set to the cursor reached then. */
  lemma {:induction false} ReplayGets(cursor: int, url: string, ticks: seq<Tick>, i: nat)
    requires i < |ticks|
    ensures |Replay(cursor, url, ticks).gets| == |ticks|
    ensures Replay(cursor, url, ticks).gets[i] ==
              (Replay(cursor, url, ticks[..i]).url, Replay(cursor, url, ticks[..i]).cursor)
    decreases |ticks|
  {
    var front := ticks[..|ticks| - 1];
    if i < |front| {
      ReplayGets(cursor, url, front, i);
      assert front[..i] == ticks[..i];
    } else {
      assert front == ticks[..i];
      if front != [] {
        ReplayGets(cursor, url, front, 0);
      }
    }
  }

  /** The GETs of a run: the first goes to the start URL with the start
      cursor; each later one goes to the `nextUrl` the previous iteration
      chose (or its URL again), with `since` set to the cursor it left. */
  lemma GetsFollowNextUrl(cursor: int, url: string, ticks: seq<Tick>, i: nat)
    requires i < |ticks|
    ensures |Replay(cursor, url, ticks).gets| == |ticks|
    ensures i == 0 ==> Replay(cursor, url, ticks).gets[0] == (url, cursor)
    ensures i > 0 ==>
              var g := Replay(cursor, url, ticks).gets;
              var s := PollStep(g[i - 1].1, g[i - 1].0, ticks[i - 1].response, ticks[i - 1].jitter);
              g[i] == (s.nextUrl, s.cursor)
  {
    ReplayGets(cursor, url, ticks, i);
    if i == 0 {
      assert ticks[..0] == [];
    } else {
      ReplayGets(cursor, url, ticks, i - 1);
      ReplayExtend(cursor, url, ticks, i - 1, None);
    }
  }

  /** How many iterations run before the loop sees `polling == false`. */
  function Ran(ticks: seq<Tick>): (n: nat)
    ensures n <= |ticks|
    ensures forall i :: 0 <= i < n - 1 ==> !ticks[i].stopRequested
    ensures n < |ticks| ==> n > 0 && ticks[n - 1].stopRequested
    decreases |ticks|
  {
    if ticks == [] then 0
    else if ticks[0].stopRequested then 1
    else 1 + Ran(ticks[1..])
  }

  /** None of the first `n` iterations asked to stop. */
  predicate NoStopBefore(ticks: seq<Tick>, n: int) {
    forall i :: 0 <= i < n && i < |ticks| ==> !ticks[i].stopRequested
  }

  lemma NoStopExtend(ticks: seq<Tick>, n: int)
    requires NoStopBefore(ticks, n - 1)
    requires 0 < n <= |ticks| ==> !ticks[n - 1].stopRequested
    ensures NoStopBefore(ticks, n)
  {
  }

  predicate StopsWithin(ticks: seq<Tick>) {
    exists i :: 0 <= i < |ticks| && ticks[i].stopRequested
  }

  /** Where a configured client posts: its webhook URL and its headers. */
  datatype Endpoint = Endpoint(url: string, headers: map<string, string>)

  /** The POSTs that forwarding `events` issues: one per event, in order,
      when a client is configured; none otherwise. */
  function Deliveries(to: Option<Endpoint>, events: seq<Event>): (posts: seq<Post>)
    ensures |posts| == if to.Some? then |events| else 0
    ensures to.Some? ==> forall i :: 0 <= i < |events| ==>
              posts[i] == Post(to.value.url, EventJson(events[i]), to.value.headers)
  {
    if to.None? then []
    else seq(|events|, i requires 0 <= i < |events| => Post(to.value.url, EventJson(events[i]), to.value.headers))
  }

  lemma DeliveriesAppend(to: Option<Endpoint>, a: seq<Event>, b: seq<Event>)
    ensures Deliveries(to, a + b) == Deliveries(to, a) + Deliveries(to, b)
  {
    if to.Some? {
      assert forall i :: 0 <= i < |a| + |b| ==> Deliveries(to, a + b)[i] == (Deliveries(to, a) + Deliveries(to, b))[i];
    }
  }

  /** The cursor, POST log and forward log after forwarding `done`, starting
      from `cursor0`, `posts0` and `log0`. */
  ghost predicate BatchProgress(cursor0: int, posts0: seq<Post>, log0: seq<(int, Event)>, to: Option<Endpoint>,
                                done: seq<Event>, cursor: int, posts: seq<Post>, log: seq<(int, Event)>)
  {
    cursor == CursorAfter(cursor0, done) &&
    posts == posts0 + Deliveries(to, done) &&
    log == log0 + Logged(cursor0, done)
  }

  /** Forwarding `events[i]` extends the progress over `events[..i]` to `events[..i + 1]`. */
  lemma BatchStep(cursor0: int, posts0: seq<Post>, log0: seq<(int, Event)>, to: Option<Endpoint>,
                  events: seq<Event>, i: nat, cursor: int, posts: seq<Post>, log: seq<(int, Event)>)
    requires i < |events|
    requires BatchProgress(cursor0, posts0, log0, to, events[..i], cursor, posts, log)
    ensures BatchProgress(cursor0, posts0, log0, to, events[..i + 1], Max(cursor, events[i].id),
                          posts + Deliveries(to, [events[i]]), log + [(Max(cursor, events[i].id), events[i])])
  {
    PrefixStep(cursor0, to, events, i);
    AppendAssociative(posts0, Deliveries(to, events[..i]), Deliveries(to, [events[i]]));
    AppendAssociative(log0, Logged(cursor0, events[..i]), [(Max(cursor, events[i].id), events[i])]);
  }

  /** The cursor, deliveries and log over `events[..i + 1]`, from those over `events[..i]`. */
  lemma PrefixStep(cursor0: int, to: Option<Endpoint>, events: seq<Event>, i: nat)
    requires i < |events|
    ensures CursorAfter(cursor0, events[..i + 1]) == Max(CursorAfter(cursor0, events[..i]), events[i].id)
    ensures Logged(cursor0, events[..i + 1]) ==
            Logged(cursor0, events[..i]) + [(CursorAfter(cursor0, events[..i + 1]), events[i])]
    ensures Deliveries(to, events[..i + 1]) == Deliveries(to, events[..i]) + Deliveries(to, [events[i]])
  {
    assert events[..i + 1][..i] == events[..i];
    assert events[..i + 1] == events[..i] + [events[i]];
    DeliveriesAppend(to, events[..i], [events[i]]);
  }

  /** The log entries of a batch: each event with the cursor as it stood
      when that event was handed to the forwarder. */
  function Logged(cursor: int, events: seq<Event>): seq<(int, Event)>
    decreases |events|
  {
    if events == [] then []
    else Logged(cursor, events[..|events| - 1]) + [(CursorAfter(cursor, events), events[|events| - 1])]
  }

  /** The k-th log entry of a batch is the k-th event with the cursor over
      the events up to and including it. */
  lemma {:induction false} LoggedAt(cursor: int, events: seq<Event>, k: nat)
    requires k < |events|
    ensures |Logged(cursor, events)| == |events|
    ensures Logged(cursor, events)[k] == (CursorAfter(cursor, events[..k + 1]), events[k])
    decreases |events|
  {
    var front := events[..|events| - 1];
    LoggedLength(cursor, front);
    if k < |front| {
      LoggedAt(cursor, front, k);
      assert front[..k + 1] == events[..k + 1];
    } else {
      assert events[..k + 1] == events;
    }
  }

  lemma {:induction false} LoggedLength(cursor: int, events: seq<Event>)
    ensures |Logged(cursor, events)| == |events|
    decreases |events|
  {
    if events != [] {
      LoggedLength(cursor, events[..|events| - 1]);
    }
  }

  /** The cursor over a longer prefix is at least the cursor over a shorter one. */
  lemma CursorAfterPrefix(cursor: int, events: seq<Event>, j: nat, k: nat)
    requires j <= k <= |events|
    ensures cursor <= CursorAfter(cursor, events[..j]) <= CursorAfter(cursor, events[..k])
  {
    assert events[..k] == events[..j] + events[j..k];
    CursorAfterAppend(cursor, events[..j], events[j..k]);
  }

  /** The cursor is raised before each event is forwarded: every log entry's
      cursor covers its own event's id, and the logged cursors start at the
      old cursor and never decrease. */
  lemma LoggedCursorCovers(cursor: int, events: seq<Event>)
    ensures |Logged(cursor, events)| == |events|
    ensures forall k :: 0 <= k < |events| ==> Logged(cursor, events)[k].1 == events[k]
    ensures forall k :: 0 <= k < |events| ==> Logged(cursor, events)[k].0 >= events[k].id
    ensures forall j, k :: 0 <= j <= k < |events| ==> cursor <= Logged(cursor, events)[j].0 <= Logged(cursor, events)[k].0
  {
    LoggedLength(cursor, events);
    forall k | 0 <= k < |events|
      ensures Logged(cursor, events)[k].1 == events[k]
      ensures Logged(cursor, events)[k].0 >= events[k].id
    {
      LoggedAt(cursor, events, k);
      assert events[..k + 1][k] == events[k];
    }
    forall j, k | 0 <= j <= k < |events|
      ensures cursor <= Logged(cursor, events)[j].0 <= Logged(cursor, events)[k].0
    {
      LoggedAt(cursor, events, j);
      LoggedAt(cursor, events, k);
      CursorAfterPrefix(cursor, events, j + 1, k + 1);
    }
  }

  class ChaturbateService {
    var polling: bool
    var lastEventId: int
    var n8nClient: N8nClient?
    /** Every GET issued: the target URL and the `since` cursor sent with it. */
    ghost var requests: seq<(string, int)>
    /** Every event handed to the forwarder, with the cursor at that moment. */
    ghost var forwardLog: seq<(int, Event)>
    /** How many polling loops have been started. */
    ghost var loopsStarted: nat

    constructor(client: N8nClient?)
      ensures !polling && lastEventId == 0 && n8nClient == client
      ensures requests == [] && forwardLog == [] && loopsStarted == 0
    {
      polling := false;
      lastEventId := 0;
      n8nClient := client;
      requests := [];
      forwardLog := [];
      loopsStarted := 0;
    }

    /** Where forwarded events go, if a client is configured. */
    function Target(): Option<Endpoint>
      reads this, n8nClient
    {
      if n8nClient == null then None else Some(Endpoint(n8nClient.WebhookUrl(), n8nClient.Headers()))
    }

    /** `startEventPolling()`: starts a loop unless one is already running. */
    method StartEventPolling() returns (started: bool)
      modifies this
      ensures started == !old(polling) && polling
      ensures started ==> loopsStarted == old(loopsStarted) + 1
      ensures !started ==> unchanged(this)
      ensures lastEventId == old(lastEventId) && n8nClient == old(n8nClient)
      ensures requests == old(requests) && forwardLog == old(forwardLog)
    {
      if polling {
        return false;
      }
      polling := true;
      loopsStarted := loopsStarted + 1;
      started := true;
    }

    /** `disconnect()`: the running loop stops at its next check of `polling`. */
    method Disconnect()
      modifies this
      ensures !polling
      ensures lastEventId == old(lastEventId) && n8nClient == old(n8nClient) && loopsStarted == old(loopsStarted)
      ensures requests == old(requests) && forwardLog == old(forwardLog)
    {
      polling := false;
    }

    /** `forwardEventToN8n(event)`: nothing without a client; otherwise one
        POST whose failure is swallowed, so it never fails. */
    method ForwardEventToN8n(event: Event, net: Network)
      modifies net
      ensures net.posts == old(net.posts) + Deliveries(Target(), [event])
    {
      if n8nClient == null {
        return;
      }
      var _ := n8nClient.ForwardEvent(EventJson(event), net);
      assert [event][..0] == [];
    }

    /** One pass of the `for (const event of events)` loop: raise the
        cursor, then forward the event. */
    method ForwardOne(event: Event, net: Network)
      modifies this, net
      ensures lastEventId == Max(old(lastEventId), event.id)
      ensures forwardLog == old(forwardLog) + [(lastEventId, event)]
      ensures net.posts == old(net.posts) + Deliveries(Target(), [event])
      ensures polling == old(polling) && n8nClient == old(n8nClient) && requests == old(requests)
      ensures loopsStarted == old(loopsStarted)
    {
      lastEventId := Max(lastEventId, event.id);
      forwardLog := forwardLog + [(lastEventId, event)];
      ForwardEventToN8n(event, net);
    }

    /** The state of the `for (const event of events)` loop after `i` events. */
    ghost predicate Forwarding(events: seq<Event>, i: int, cursor0: int, posts0: seq<Post>,
                               log0: seq<(int, Event)>, target: Option<Endpoint>, net: Network)
      reads this, n8nClient, net
    {
      0 <= i <= |events| && Target() == target &&
      BatchProgress(cursor0, posts0, log0, target, events[..i], lastEventId, net.posts, forwardLog)
    }

    /** Forwards `events[i]`, advancing the loop state by one event. */
    method ForwardNext(events: seq<Event>, i: int, ghost cursor0: int, ghost posts0: seq<Post>,
                       ghost log0: seq<(int, Event)>, ghost target: Option<Endpoint>, net: Network)
      requires Forwarding(events, i, cursor0, posts0, log0, target, net) && i < |events|
      modifies this, net
      ensures Forwarding(events, i + 1, cursor0, posts0, log0, target, net)
      ensures polling == old(polling) && n8nClient == old(n8nClient) && requests == old(requests)
      ensures loopsStarted == old(loopsStarted)
    {
      ghost var cursor, posts, log := lastEventId, net.posts, forwardLog;
      ForwardOne(events[i], net);
      BatchStep(cursor0, posts0, log0, target, events, i, cursor, posts, log);
    }

    /** The `for (const event of events)` loop. */
    method ForwardBatch(events: seq<Event>, net: Network)
      modifies this, net
      ensures lastEventId == CursorAfter(old(lastEventId), events)
      ensures net.posts == old(net.posts) + Deliveries(Target(), events)
      ensures forwardLog == old(forwardLog) + Logged(old(lastEventId), events)
      ensures polling == old(polling) && n8nClient == old(n8nClient) && requests == old(requests)
      ensures loopsStarted == old(loopsStarted)
    {
      ghost var cursor0, posts0, log0, target := lastEventId, net.posts, forwardLog, Target();
      assert events[..0] == [];
      var i := 0;
      while i < |events|
        invariant Forwarding(events, i, cursor0, posts0, log0, target, net)
        invariant polling == old(polling) && n8nClient == old(n8nClient) && requests == old(requests)
        invariant loopsStarted == old(loopsStarted)
        decreases |events| - i
      {
        ForwardNext(events, i, cursor0, posts0, log0, target, net);
        i := i + 1;
      }
      assert events[..i] == events;
    }

    /** One iteration of the `while (this.polling)` loop at target `url`. */
    method PollIteration(url: string, response: PollResponse, r: real, net: Network)
      returns (nextUrl: string, sleepMs: real)
      requires 0.0 <= r < 1.0
      modifies this, net
      ensures var s := PollStep(old(lastEventId), url, response, r);
        lastEventId == s.cursor && nextUrl == s.nextUrl && sleepMs == s.sleepMs &&
        net.posts == old(net.posts) + Deliveries(Target(), s.forwarded)
      ensures requests == old(requests) + [(url, old(lastEventId))]
      ensures polling == old(polling) && n8nClient == old(n8nClient) && loopsStarted == old(loopsStarted)
    {
      requests := requests + [(url, lastEventId)];
      match response
      case PollFailed(_) =>
        nextUrl, sleepMs := url, 2000.0 + r * 3000.0;
      case Polled(events, next) =>
        ForwardBatch(if events.Some? then events.value else [], net);
        if TruthyString(next) {
          nextUrl, sleepMs := next.value, 0.0;
        } else {
          nextUrl, sleepMs := url, IdleSleepMs;
        }
    }

    /** One iteration of the loop, during which `disconnect()` may be called. */
    method RunTick(t: Tick, url: string, net: Network) returns (nextUrl: string)
      modifies this, net
      ensures var s := PollStep(old(lastEventId), url, t.response, t.jitter);
        lastEventId == s.cursor && nextUrl == s.nextUrl &&
        net.posts == old(net.posts) + Deliveries(Target(), s.forwarded)
      ensures requests == old(requests) + [(url, old(lastEventId))]
      ensures polling == (old(polling) && !t.stopRequested)
      ensures n8nClient == old(n8nClient) && loopsStarted == old(loopsStarted)
    {
      var sleepMs;
      nextUrl, sleepMs := PollIteration(url, t.response, t.jitter, net);
      if t.stopRequested {
        Disconnect();
      }
    }

    /** The part of the service and the network that `pollEvents()` changes. */
    ghost function View(eventsUrl: string, net: Network): LoopView
      reads this, net
    {
      LoopView(lastEventId, eventsUrl, net.posts, requests, polling)
    }

    /** `pollEvents()` run against a script of iterations, starting at the
        configured `baseUrl`; returns how many iterations ran. */
    method PollEvents(baseUrl: string, script: seq<Tick>, net: Network) returns (ran: nat)
      modifies this, net
      ensures ran == if old(polling) then Ran(script) else 0
      ensures var p := Replay(old(lastEventId), baseUrl, script[..ran]);
        lastEventId == p.cursor && net.posts == old(net.posts) + Deliveries(Target(), p.forwarded) &&
        requests == old(requests) + p.gets
      ensures lastEventId >= old(lastEventId)
      ensures polling <==> old(polling) && !StopsWithin(script)
      ensures n8nClient == old(n8nClient) && Target() == old(Target()) && loopsStarted == old(loopsStarted)
    {
      ghost var start := PollStart(lastEventId, net.posts, requests, Target(), baseUrl, polling);
      var eventsUrl := baseUrl;
      ran := 0;
      assert script[..0] == [];
      while polling && ran < |script|
        invariant Reached(start, script, ran, View(eventsUrl, net))
        invariant n8nClient == old(n8nClient) && Target() == start.target && loopsStarted == old(loopsStarted)
      {
        ghost var before := View(eventsUrl, net);
        eventsUrl := RunTick(script[ran], eventsUrl, net);
        ReachedStep(start, script, ran, before, View(eventsUrl, net));
        ran := ran + 1;
      }
      RanIsFirstStop(script, ran, start.started, polling);
      ReplayCursor(start.cursor, baseUrl, script[..ran]);
    }
  }

  /** What `pollEvents()` starts from: the cursor, the POSTs and GETs already
      issued, where events go, the first URL, and whether polling was on. */
  datatype PollStart = PollStart(cursor: int, posts: seq<Post>, requests: seq<(string, int)>, target: Option<Endpoint>,
                                 baseUrl: string, started: bool)

  /** The cursor, URL, POST log, GET log and polling flag at a point of the loop. */
  datatype LoopView = LoopView(cursor: int, url: string, posts: seq<Post>, requests: seq<(string, int)>, polling: bool)

  /** The loop state after `ran` iterations of `script`. */
  ghost predicate Reached(start: PollStart, script: seq<Tick>, ran: nat, v: LoopView) {
    ran <= |script| && Replayed(start, script, ran, v) && StopsTracked(start, script, ran, v)
  }

  /** The cursor, URL, POST log and GET log are those of the first `ran` iterations. */
  ghost predicate Replayed(start: PollStart, script: seq<Tick>, ran: nat, v: LoopView)
    requires ran <= |script|
  {
    var p := Replay(start.cursor, start.baseUrl, script[..ran]);
    v.cursor == p.cursor && v.url == p.url && v.posts == start.posts + Deliveries(start.target, p.forwarded) &&
    v.requests == start.requests + p.gets
  }

  /** Polling is still on exactly when it was on at the start and the last
      iteration did not stop it; no earlier iteration did. */
  ghost predicate StopsTracked(start: PollStart, script: seq<Tick>, ran: nat, v: LoopView)
    requires ran <= |script|
  {
    NoStopBefore(script, ran - 1) &&
    v.polling == (start.started && (ran == 0 || !script[ran - 1].stopRequested)) &&
    (!start.started ==> ran == 0)
  }

  /** One iteration, taken while polling is on, moves the loop state from
      `ran` to `ran + 1`. */
  lemma ReachedStep(start: PollStart, script: seq<Tick>, ran: nat, v: LoopView, w: LoopView)
    requires ran < |script| && v.polling
    requires Reached(start, script, ran, v)
    requires var s := PollStep(v.cursor, v.url, script[ran].response, script[ran].jitter);
      w.cursor == s.cursor && w.url == s.nextUrl && w.posts == v.posts + Deliveries(start.target, s.forwarded) &&
      w.requests == v.requests + [(v.url, v.cursor)] && w.polling == !script[ran].stopRequested
    ensures Reached(start, script, ran + 1, w)
  {
    ReplayedStep(start, script, ran, v, w);
    NoStopExtend(script, ran);
  }

  lemma ReplayedStep(start: PollStart, script: seq<Tick>, ran: nat, v: LoopView, w: LoopView)
    requires ran < |script| && Replayed(start, script, ran, v)
    requires var s := PollStep(v.cursor, v.url, script[ran].response, script[ran].jitter);
      w.cursor == s.cursor && w.url == s.nextUrl && w.posts == v.posts + Deliveries(start.target, s.forwarded) &&
      w.requests == v.requests + [(v.url, v.cursor)]
    ensures Replayed(start, script, ran + 1, w)
  {
    var p := Replay(start.cursor, start.baseUrl, script[..ran]);
    var step := PollStep(p.cursor, p.url, script[ran].response, script[ran].jitter);
    ReplayExtend(start.cursor, start.baseUrl, script, ran, start.target);
    AppendAssociative(start.posts, Deliveries(start.target, p.forwarded), Deliveries(start.target, step.forwarded));
    AppendAssociative(start.requests, p.gets, [(p.url, p.cursor)]);
  }

  /** Running one more iteration extends the replay and its deliveries. */
  lemma ReplayExtend(cursor: int, url: string, ticks: seq<Tick>, i: nat, to: Option<Endpoint>)
    requires i < |ticks|
    ensures var p := Replay(cursor, url, ticks[..i]);
      var s := PollStep(p.cursor, p.url, ticks[i].response, ticks[i].jitter);
      Replay(cursor, url, ticks[..i + 1]) == Progress(s.cursor, s.nextUrl, p.forwarded + s.forwarded, p.gets + [(p.url, p.cursor)]) &&
      Deliveries(to, p.forwarded + s.forwarded) == Deliveries(to, p.forwarded) + Deliveries(to, s.forwarded)
  {
    assert ticks[..i + 1][..i] == ticks[..i];
    var p := Replay(cursor, url, ticks[..i]);
    DeliveriesAppend(to, p.forwarded, PollStep(p.cursor, p.url, ticks[i].response, ticks[i].jitter).forwarded);
  }

  /** The loop's exit condition pins down how many iterations ran and
      whether polling is still on. */
  lemma {:induction false} RanIsFirstStop(script: seq<Tick>, ran: nat, started: bool, polling: bool)
    requires ran <= |script|
    requires NoStopBefore(script, ran - 1)
    requires polling ==> started && ran == |script| && (ran == 0 || !script[ran - 1].stopRequested)
    requires started && !polling ==> ran > 0 && script[ran - 1].stopRequested
    requires !started ==> ran == 0 && !polling
    ensures ran == if started then Ran(script) else 0
    ensures polling <==> started && !StopsWithin(script)
    decreases |script|
  {
    if polling {
      assert forall i :: 0 <= i < |script| ==> !script[i].stopRequested;
    }
    if started && ran > 0 && !script[0].stopRequested {
      assert forall i :: 0 <= i < ran - 2 ==> !script[1..][i].stopRequested by {
        forall i | 0 <= i < ran - 2 ensures !script[1..][i].stopRequested {
          assert script[1..][i] == script[i + 1];
        }
      }
      RanIsFirstStop(script[1..], ran - 1, true, polling);
    }
  }

}
