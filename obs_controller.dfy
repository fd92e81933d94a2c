/** The HTTP routes under /obs (src/controllers/obsController.js): forward a
    command, take a screenshot of the preview scene, and zoom a source by
    cropping it. Each handler answers its response exactly once. */
module ObsController {
  import opened Values
  import opened Http
  import opened ObsWebSocket
  import opened ObsService
  import opened ObsHelpers

  const CommandQueued: Reply := Reply(202, Text("OBS offline, command queued"))
  const Offline: Reply := Reply(503, Text(NotConnected))

  // ---------------------------------------------------------------------
  // POST /obs

  /** `POST /`: while OBS is offline the command is queued and answered 202
      at once; otherwise it needs a `requestType` and is sent to OBS, whose
      result (or failure) is the answer. */
  method PostCommand(svc: ObsService, req: Request, res: Response, now: int) returns (queued: QueueItem?)
    requires svc.Valid() && res.reply == None && res !in ResponsesOf(svc.queue)
    modifies svc, svc.obs, res
    ensures svc.Valid() && res.reply.Some?
    ensures !old(svc.ready) ==>
              queued != null && fresh(queued) && queued.req == req && queued.res == res &&
              svc.queue == old(svc.queue) + [queued] &&
              res.reply == Some(CommandQueued) && svc.obs.calls == old(svc.obs.calls)
    ensures old(svc.ready) ==> queued == null && svc.queue == old(svc.queue)
    ensures old(svc.ready) && !TruthyString(req.requestType) ==>
              res.reply == Some(RequestTypeRequired) && svc.obs.calls == old(svc.obs.calls)
    ensures old(svc.ready) && TruthyString(req.requestType) ==>
              svc.obs.calls == old(svc.obs.calls) + [CallOf(req)] &&
              res.reply == Some(CommandReply(old(svc.Outcome(CallOf(req)))))
    ensures old(AllAnswered(svc.queue)) ==> AllAnswered(svc.queue)
    ensures svc.ready == old(svc.ready) && svc.attempt == old(svc.attempt) && svc.dispatched == old(svc.dispatched)
  {
    var ready := svc.IsReady();
    if !ready {
      queued := svc.QueueRequest(req, res, now);
      res.Send(CommandQueued);
      assert forall i :: 0 <= i < |old(svc.queue)| ==> svc.queue[i] == old(svc.queue)[i];
      return;
    }
    queued := null;
    if !TruthyString(req.requestType) {
      res.Send(RequestTypeRequired);
      return;
    }
    var r := svc.CallObs(req.requestType.value, req.requestData);
    res.Send(CommandReply(r));
  }

  /** A command posted while OBS is offline is answered 202 at once. So its
      30 s timeout finds the exchange answered and leaves the entry queued,
      and when the connection comes up the flush skips it: the command never
      reaches OBS. */
  method QueuedCommandNeverReachesObs(answer: (nat, Call) -> PeerReply, req: Request, now: int)
    returns (reply: Option<Reply>, timedOut: bool, calls: seq<Call>)
    ensures reply == Some(CommandQueued)
    ensures !timedOut
    ensures calls == []
  {
    var svc := new ObsService(answer);
    var res := new Response();
    var item := PostCommand(svc, req, res, now);
    timedOut := svc.OnQueueTimeout(item);
    assert svc.queue == [item];
    AnsweredQueueMakesNoCalls(Entries(svc.queue));
    svc.OnConnectTimer(true);
    reply := res.reply;
    calls := svc.obs.calls;
  }

  // ---------------------------------------------------------------------
  // GET /obs/preview

  /** The `w` and `h` query parameters, as `parseInt` reads them; `None`
      when the parameter is missing or empty. */
  datatype PreviewQuery = PreviewQuery(w: Option<int>, h: Option<int>)

  /** `Math.max(64, Math.min(4096, parseInt(q || default)))`: the requested
      size limited to [64, 4096], the default when none is given. */
  function Dimension(q: Option<int>, default: int): (d: int)
    ensures 64 <= d <= 4096
    ensures var v := if q.Some? then q.value else default;
      (64 <= v <= 4096 ==> d == v) && (v < 64 ==> d == 64) && (v > 4096 ==> d == 4096)
  {
    Max(64, Min(4096, if q.Some? then q.value else default))
  }

  const PreviewSceneCall: Call := Call("GetCurrentPreviewScene", EmptyObject)
  const ProgramSceneCall: Call := Call("GetCurrentProgramScene", EmptyObject)

  /** The data of a `GetSourceScreenshot` request: a JPEG of `sceneName` at `w`×`h`. */
  function ScreenshotRequest(sceneName: Json, w: int, h: int): Json {
    JObj(map["sourceName" := sceneName, "imageFormat" := JStr("jpeg"),
             "imageWidth" := JNum(w as real), "imageHeight" := JNum(h as real)])
  }

  function ScreenshotCall(sceneName: Json, w: int, h: int): Call {
    Call("GetSourceScreenshot", ScreenshotRequest(sceneName, w, h))
  }

  /** The index of the first `c` in `s`, or -1. */
  function IndexOf(s: string, c: char): (i: int)
    ensures -1 <= i < |s|
    ensures i == -1 <==> c !in s
    ensures i >= 0 ==> s[i] == c && c !in s[..i]
    decreases |s|
  {
    if s == [] then -1
    else if s[0] == c then 0
    else
      var j := IndexOf(s[1..], c);
      assert j >= 0 ==> s[..j + 1] == [s[0]] + s[1..][..j];
      if j == -1 then -1 else j + 1
  }

  /** `imageData.startsWith('data:') ? imageData.split(',', 2)[1] : imageData`.
      A data URL yields the text between its first comma and the next comma
      (or the end); one without a comma yields `undefined`, which cannot be
      decoded, and neither can an `imageData` that is not a string: `None`. */
  function StripDataUrl(imageData: Json): (r: Option<string>)
    ensures !imageData.JStr? ==> r == None
    ensures imageData.JStr? && !("data:" <= imageData.s) ==> r == Some(imageData.s)
    ensures imageData.JStr? && "data:" <= imageData.s && ',' !in imageData.s ==> r == None
    ensures imageData.JStr? && "data:" <= imageData.s && ',' in imageData.s ==>
              var s := imageData.s;
              var i := IndexOf(s, ',');
              r.Some? && ',' !in r.value && i + 1 + |r.value| <= |s| &&
              s[i + 1..i + 1 + |r.value|] == r.value &&
              (i + 1 + |r.value| == |s| || s[i + 1 + |r.value|] == ',')
  {
    if !imageData.JStr? then None
    else
      var s := imageData.s;
      if !("data:" <= s) then Some(s)
      else
        var i := IndexOf(s, ',');
        if i == -1 then None
        else
          var rest := s[i + 1..];
          var j := IndexOf(rest, ',');
          var piece := if j == -1 then rest else rest[..j];
          assert s[i + 1..i + 1 + |piece|] == piece;
          Some(piece)
  }

  /** `s.includes(sub)`: `sub` starts at some position of `s`. */
  predicate Contains(s: string, sub: string)
    decreases |s|
  {
    sub <= s || (s != [] && Contains(s[1..], sub))
  }

  /** An occurrence at position `i` makes `Contains` true ... */
  lemma {:induction false} ContainsAt(s: string, sub: string, i: nat)
    requires i + |sub| <= |s| && s[i..i + |sub|] == sub
    ensures Contains(s, sub)
    decreases i
  {
    if i > 0 {
      assert s[1..][i - 1..i - 1 + |sub|] == s[i..i + |sub|];
      ContainsAt(s[1..], sub, i - 1);
    }
  }

  /** ... and `Contains` holds only with such a position. */
  lemma {:induction false} ContainsWitness(s: string, sub: string) returns (i: nat)
    requires Contains(s, sub)
    ensures i + |sub| <= |s| && s[i..i + |sub|] == sub
    decreases |s|
  {
    if sub <= s {
      i := 0;
    } else {
      var j := ContainsWitness(s[1..], sub);
      assert s[j + 1..j + 1 + |sub|] == s[1..][j..j + |sub|];
      i := j + 1;
    }
  }

  const InvalidRequestMarker: string := "Your request type is not valid"
  const NotUnderstood: Reply := Reply(500, Text("OBS-WebSocket does not understand the request. Please check that you are using OBS-WebSocket v5.x and the request name is correct."))
  const PreviewFailed: Reply := Reply(500, Text("Preview failed"))

  /** The answer to a preview that failed with `message`. */
  function PreviewFailure(message: string): (r: Reply)
    ensures r == NotUnderstood <==> Contains(message, InvalidRequestMarker)
    ensures r == PreviewFailed <==> !Contains(message, InvalidRequestMarker)
  {
    if Contains(message, InvalidRequestMarker) then NotUnderstood else PreviewFailed
  }

  /** The calls a handler made and the answer it sent. */
  datatype Exchange = Exchange(calls: seq<Call>, reply: Reply)

  /** What GET /preview does once OBS is connected, given how OBS answers its
      calls from the `n`-th on: ask for the preview scene, fall back to the
      program scene when that fails, take a screenshot at the clamped size,
      and send the decoded image. */
  function PreviewExchange(answer: (nat, Call) -> PeerReply, n: nat, query: PreviewQuery): (e: Exchange)
    ensures 1 <= |e.calls| <= 3 && e.calls[0] == PreviewSceneCall
    ensures |e.calls| >= 2 && e.calls[1] == ProgramSceneCall <==> answer(n, PreviewSceneCall).Failed?
    ensures e.reply.status == 200 || e.reply == PreviewFailed || e.reply == NotUnderstood
    ensures e.reply.status == 200 ==>
              var last := e.calls[|e.calls| - 1];
              var shot := NonFalsy(answer(n + |e.calls| - 1, last));
              e.reply.body.Jpeg? && shot.Answered? &&
              (exists scene :: last == ScreenshotCall(scene, Dimension(query.w, 1920), Dimension(query.h, 1080))) &&
              StripDataUrl(Field(shot.result, "imageData")) == Some(e.reply.body.base64)
    // Which scene is shot: the preview scene, or the program scene when asking for the preview failed.
    ensures var first := NonFalsy(answer(n, PreviewSceneCall));
            var second := NonFalsy(answer(n + 1, ProgramSceneCall));
            var w, h := Dimension(query.w, 1920), Dimension(query.h, 1080);
            (first.Answered? ==>
               e.calls == [PreviewSceneCall, ScreenshotCall(Field(first.result, "currentPreviewSceneName"), w, h)]) &&
            (first.Failed? && second.Answered? ==>
               e.calls == [PreviewSceneCall, ProgramSceneCall, ScreenshotCall(Field(second.result, "currentProgramSceneName"), w, h)]) &&
            (first.Failed? && second.Failed? ==>
               e == Exchange([PreviewSceneCall, ProgramSceneCall], PreviewFailure(second.message)))
    // How the screenshot's answer is turned into the HTTP reply.
    ensures e.calls[|e.calls| - 1].requestType == "GetSourceScreenshot" ==>
              var shot := NonFalsy(answer(n + |e.calls| - 1, e.calls[|e.calls| - 1]));
              var image := if shot.Answered? then StripDataUrl(Field(shot.result, "imageData")) else None;
              (shot.Failed? ==> e.reply == PreviewFailure(shot.message)) &&
              (shot.Answered? && image.Some? ==> e.reply == Reply(200, Jpeg(image.value))) &&
              (shot.Answered? && image.None? ==> e.reply == PreviewFailed)
  {
    var first := NonFalsy(answer(n, PreviewSceneCall));
    var sceneCalls := if first.Answered? then [PreviewSceneCall] else [PreviewSceneCall, ProgramSceneCall];
    var scene :=
      if first.Answered? then Answered(Field(first.result, "currentPreviewSceneName"))
      else
        var second := NonFalsy(answer(n + 1, ProgramSceneCall));
        if second.Answered? then Answered(Field(second.result, "currentProgramSceneName")) else second;
    match scene
    case Failed(m) => Exchange(sceneCalls, PreviewFailure(m))
    case Answered(sceneName) =>
      var shotCall := ScreenshotCall(sceneName, Dimension(query.w, 1920), Dimension(query.h, 1080));
      var calls := sceneCalls + [shotCall];
      var shot := NonFalsy(answer(n + |sceneCalls|, shotCall));
      if shot.Failed? then Exchange(calls, PreviewFailure(shot.message))
      else
        var image := StripDataUrl(Field(shot.result, "imageData"));
        if image.None? then Exchange(calls, PreviewFailed)
        else Exchange(calls, Reply(200, Jpeg(image.value)))
  }

  /** `GET /preview`: 503 while offline; otherwise the exchange above. */
  method GetPreview(svc: ObsService, query: PreviewQuery, res: Response)
    requires res.reply == None
    modifies svc.obs, res
    ensures !svc.ready ==> res.reply == Some(Offline) && svc.obs.calls == old(svc.obs.calls)
    ensures svc.ready ==>
              var e := PreviewExchange(svc.obs.answer, |old(svc.obs.calls)|, query);
              svc.obs.calls == old(svc.obs.calls) + e.calls && res.reply == Some(e.reply)
    ensures svc.obs.closeRequests == old(svc.obs.closeRequests)
  {
    var ready := svc.IsReady();
    if !ready {
      res.Send(Offline);
      return;
    }
    var sceneName: Json;
    var first := svc.CallObs("GetCurrentPreviewScene", None);
    if first.Answered? {
      sceneName := Field(first.result, "currentPreviewSceneName");
    } else {
      var second := svc.CallObs("GetCurrentProgramScene", None);
      if second.Failed? {
        res.Send(PreviewFailure(second.message));
        return;
      }
      sceneName := Field(second.result, "currentProgramSceneName");
    }
    var w := Dimension(query.w, 1920);
    var h := Dimension(query.h, 1080);
    var shot := svc.CallObs("GetSourceScreenshot", Some(ScreenshotRequest(sceneName, w, h)));
    if shot.Failed? {
      res.Send(PreviewFailure(shot.message));
      return;
    }
    var image := StripDataUrl(Field(shot.result, "imageData"));
    if image.None? {
      res.Send(PreviewFailed);
      return;
    }
    res.Send(Reply(200, Jpeg(image.value)));
  }

  // ---------------------------------------------------------------------
  // POST /obs/zoom

  const MissingFields: Reply := Reply(400, Text("scene, source, x, y are required fields"))

  /** The bodies the model covers: a truthy scene or source is a string, and
      the zoom, when given, is a non-zero number. */
  predicate ZoomBodyModelled(body: Json) {
    var scene := Field(body, "scene");
    var source := Field(body, "source");
    var zoom := Field(body, "zoom");
    body.JObj? &&
    (Falsy(scene) || scene.JStr?) && (Falsy(source) || source.JStr?) &&
    (zoom == JNull || (zoom.JNum? && zoom.n != 0.0))
  }

  /** A validated zoom request. */
  datatype Focus = Focus(scene: string, source: string, x: real, y: real, zoom: real)

  /** The validation of `{ scene, source, x, y, zoom = 2 }`: scene and source
      must be truthy and x and y numbers; a missing zoom is 2. */
  function ParseZoom(body: Json): (r: Option<Focus>)
    requires ZoomBodyModelled(body)
    ensures r.None? <==> Falsy(Field(body, "scene")) || Falsy(Field(body, "source")) ||
                         !Field(body, "x").JNum? || !Field(body, "y").JNum?
    ensures r.Some? ==>
              JStr(r.value.scene) == Field(body, "scene") && r.value.scene != "" &&
              JStr(r.value.source) == Field(body, "source") && r.value.source != "" &&
              JNum(r.value.x) == Field(body, "x") && JNum(r.value.y) == Field(body, "y") &&
              r.value.zoom != 0.0 &&
              r.value.zoom == (if Field(body, "zoom") == JNull then 2.0 else Field(body, "zoom").n)
  {
    var scene := Field(body, "scene");
    var source := Field(body, "source");
    var x := Field(body, "x");
    var y := Field(body, "y");
    var zoom := Field(body, "zoom");
    if Falsy(scene) || Falsy(source) || !x.JNum? || !y.JNum? then None
    else Some(Focus(scene.s, source.s, x.n, y.n, if zoom == JNull then 2.0 else zoom.n))
  }

  function CropsJson(c: Crops): Json {
    JObj(map["cropLeft" := JNum(c.cropLeft), "cropRight" := JNum(c.cropRight),
             "cropTop" := JNum(c.cropTop), "cropBottom" := JNum(c.cropBottom)])
  }

  function TransformCall(scene: string, sceneItemId: Json, c: Crops): Call {
    Call("SetSceneItemTransform", JObj(map["sceneName" := JStr(scene), "sceneItemId" := sceneItemId,
                                           "sceneItemTransform" := CropsJson(c)]))
  }

  function SwitchCall(scene: string): Call {
    Call("SetCurrentProgramScene", JObj(map["sceneName" := JStr(scene)]))
  }

  /** The JSON answer of a successful zoom. */
  function ZoomSummary(f: Focus, cam: Resolution, c: Crops): Json {
    JObj(map["ok" := JBool(true), "scene" := JStr(f.scene), "source" := JStr(f.source),
             "camW" := JNum(cam.camW), "camH" := JNum(cam.camH),
             "cropLeft" := JNum(c.cropLeft), "cropRight" := JNum(c.cropRight),
             "cropTop" := JNum(c.cropTop), "cropBottom" := JNum(c.cropBottom)])
  }

  /** The lookups of a zoom: the OBS calls they make, the source's size and
      the scene item id (or the error that ends the zoom). */
  datatype Lookup = Lookup(calls: seq<Call>, cam: Resolution, id: Result<Json>)

  /** What `getSourceResolution` and `getSceneItemId` do for `f`, given the
      two caches and how OBS answers its calls from the `n`-th on. */
  function ZoomLookup(answer: (nat, Call) -> PeerReply, n: nat, resolutions: map<string, Resolution>,
                      ids: map<string, Json>, f: Focus): (l: Lookup)
    // The size: the cached one, or the one the GetInputSettings call reports.
    ensures f.source in resolutions ==> l.cam == resolutions[f.source] && InputSettingsCall(f.source) !in l.calls
    ensures f.source !in resolutions ==>
              |l.calls| >= 1 && l.calls[0] == InputSettingsCall(f.source) &&
              l.cam == ResolutionFromReply(answer(n, InputSettingsCall(f.source)))
    // The id: a truthy cached one, or what GetSceneItemId answers; only a failed call or a null answer is an error.
    ensures var sizeCalls := if f.source in resolutions then [] else [InputSettingsCall(f.source)];
            var key := SceneItemKey(f.scene, f.source);
            var cached := key in ids && !Falsy(ids[key]);
            var reply := answer(n + |sizeCalls|, SceneItemIdCall(f.scene, f.source));
            (cached ==> l.calls == sizeCalls && l.id == Ok(ids[key])) &&
            (!cached ==>
               l.calls == sizeCalls + [SceneItemIdCall(f.scene, f.source)] &&
               (l.id.Err? <==> reply.Failed? || reply == Answered(JNull)) &&
               (reply.Failed? ==> l.id == Err(reply.message)) &&
               (l.id.Ok? ==> l.id.value == Field(reply.result, "sceneItemId")))
    ensures |l.calls| <= 2
  {
    var cached := f.source in resolutions;
    var sizeCalls := if cached then [] else [InputSettingsCall(f.source)];
    var cam := if cached then resolutions[f.source] else ResolutionFromReply(answer(n, InputSettingsCall(f.source)));
    var key := SceneItemKey(f.scene, f.source);
    if key in ids && !Falsy(ids[key]) then Lookup(sizeCalls, cam, Ok(ids[key]))
    else
      var idCall := SceneItemIdCall(f.scene, f.source);
      var reply := answer(n + |sizeCalls|, idCall);
      var id := if reply.Failed? then Err(reply.message)
                else if reply.result == JNull then Err(NullSceneItem)
                else Ok(Field(reply.result, "sceneItemId"));
      Lookup(sizeCalls + [idCall], cam, id)
  }

  /** What a valid zoom request does once past the readiness check, given
      whether the service is (still) ready, the caches, and how OBS answers
      its calls from the `n`-th on: the lookups, then the transform and the
      scene switch through `callObs`, the first failure answered 500. */
  function ZoomExchange(answer: (nat, Call) -> PeerReply, n: nat, ready: bool, resolutions: map<string, Resolution>,
                        ids: map<string, Json>, f: Focus): (e: Exchange)
    requires f.zoom != 0.0
    ensures var l := ZoomLookup(answer, n, resolutions, ids, f);
            |l.calls| <= |e.calls| <= |l.calls| + 2 && e.calls[..|l.calls|] == l.calls
    ensures e.reply.status == 200 || (e.reply.status == 500 && e.reply.body.Text?)
  {
    var l := ZoomLookup(answer, n, resolutions, ids, f);
    if l.id.Err? then Exchange(l.calls, Reply(500, Text(l.id.error)))
    else
      var crops := CropsForFocus(l.cam.camW, l.cam.camH, f.zoom, f.x, f.y);
      var a := TransformAttempt(answer, n + |l.calls|, ready, f.scene, l.id.value, crops);
      if a.failure.Some? then Exchange(l.calls + a.calls, Reply(500, Text(a.failure.value)))
      else Exchange(l.calls + a.calls, Reply(200, JsonBody(ZoomSummary(f, l.cam, crops))))
  }

  /** How a zoom ends: 200 with the crops exactly when the lookups succeed
      and both OBS calls after them are answered, else 500 with the message
      of the first failure. */
  lemma ZoomOutcome(answer: (nat, Call) -> PeerReply, n: nat, ready: bool, resolutions: map<string, Resolution>,
                    ids: map<string, Json>, f: Focus)
    requires f.zoom != 0.0
    ensures var e := ZoomExchange(answer, n, ready, resolutions, ids, f);
            var l := ZoomLookup(answer, n, resolutions, ids, f);
            var m := |l.calls|;
            e.reply.status == 200 <==>
              ready && l.id.Ok? && |e.calls| == m + 2 &&
              NonFalsy(answer(n + m, e.calls[m])).Answered? && NonFalsy(answer(n + m + 1, e.calls[m + 1])).Answered?
    ensures var e := ZoomExchange(answer, n, ready, resolutions, ids, f);
            var l := ZoomLookup(answer, n, resolutions, ids, f);
            e.reply.status == 200 ==>
              var crops := CropsForFocus(l.cam.camW, l.cam.camH, f.zoom, f.x, f.y);
              e.calls == l.calls + [TransformCall(f.scene, l.id.value, crops), SwitchCall(f.scene)] &&
              e.reply == Reply(200, JsonBody(ZoomSummary(f, l.cam, crops)))
    ensures var e := ZoomExchange(answer, n, ready, resolutions, ids, f);
            var l := ZoomLookup(answer, n, resolutions, ids, f);
            (l.id.Err? ==> e == Exchange(l.calls, Reply(500, Text(l.id.error)))) &&
            (l.id.Ok? && !ready ==> e == Exchange(l.calls, Reply(500, Text(NotConnected)))) &&
            (l.id.Ok? && ready && e.reply.status == 500 ==>
               |e.calls| > |l.calls| &&
               var last := NonFalsy(answer(n + |e.calls| - 1, e.calls[|e.calls| - 1]));
               last.Failed? && e.reply == Reply(500, Text(last.message)))
  {
    var l := ZoomLookup(answer, n, resolutions, ids, f);
    if l.id.Ok? {
      var crops := CropsForFocus(l.cam.camW, l.cam.camH, f.zoom, f.x, f.y);
      var a := TransformAttempt(answer, n + |l.calls|, ready, f.scene, l.id.value, crops);
      assert ZoomExchange(answer, n, ready, resolutions, ids, f).calls == l.calls + a.calls;
    }
  }

  /** The calls the last steps of a zoom make, and the failure, if any, that ends them. */
  datatype Attempt = Attempt(calls: seq<Call>, failure: Option<string>)

  /** The transform and the scene switch, each through `callObs`, given
      whether the service is ready and how OBS answers its calls from the
      `n`-th on: the first failure ends them. */
  function TransformAttempt(answer: (nat, Call) -> PeerReply, n: nat, ready: bool, scene: string, sceneItemId: Json,
                            crops: Crops): (a: Attempt)
    ensures !ready ==> a == Attempt([], Some(NotConnected))
    // Fails exactly when one of the two answers is a failure, with that answer's message.
    ensures ready ==>
              var transform, switch := TransformCall(scene, sceneItemId, crops), SwitchCall(scene);
              var applied := NonFalsy(answer(n, transform));
              var switched := NonFalsy(answer(n + 1, switch));
              (applied.Failed? ==> a == Attempt([transform], Some(applied.message))) &&
              (applied.Answered? ==>
                 a.calls == [transform, switch] &&
                 a.failure == if switched.Failed? then Some(switched.message) else None)
  {
    var transform, switch := TransformCall(scene, sceneItemId, crops), SwitchCall(scene);
    var applied := NonFalsy(answer(n, transform));
    if !ready then Attempt([], Some(NotConnected))
    else if applied.Failed? then Attempt([transform], Some(applied.message))
    else
      var switched := NonFalsy(answer(n + 1, switch));
      Attempt([transform, switch], if switched.Failed? then Some(switched.message) else None)
  }

  /** The OBS side of a valid zoom request: look up the source's size and
      the scene item, crop the item around the focus point, switch the
      program scene to it, and report the crops. Any failure along the way
      is answered 500 with its message. */
  method ApplyZoom(svc: ObsService, caches: Caches, f: Focus, res: Response)
    requires res.reply == None && f.zoom != 0.0
    modifies svc.obs, caches, res
    ensures res.reply.Some?
    ensures old(svc.obs.calls) <= svc.obs.calls
    ensures f.source in caches.sourceResolutions
    ensures res.reply.value.status == 200 || (res.reply.value.status == 500 && res.reply.value.body.Text?)
    ensures res.reply.value.status == 200 ==>
              var cam := caches.sourceResolutions[f.source];
              var key := SceneItemKey(f.scene, f.source);
              var crops := CropsForFocus(cam.camW, cam.camH, f.zoom, f.x, f.y);
              key in caches.sceneItemIds && |svc.obs.calls| >= 2 &&
              svc.obs.calls[|svc.obs.calls| - 2..] == [TransformCall(f.scene, caches.sceneItemIds[key], crops), SwitchCall(f.scene)] &&
              res.reply == Some(Reply(200, JsonBody(ZoomSummary(f, cam, crops))))
    ensures var e := ZoomExchange(svc.obs.answer, |old(svc.obs.calls)|, svc.ready,
                                  old(caches.sourceResolutions), old(caches.sceneItemIds), f);
            svc.obs.calls == old(svc.obs.calls) + e.calls && res.reply == Some(e.reply)
    ensures var l := ZoomLookup(svc.obs.answer, |old(svc.obs.calls)|, old(caches.sourceResolutions), old(caches.sceneItemIds), f);
            caches.sourceResolutions == old(caches.sourceResolutions)[f.source := l.cam] &&
            caches.sceneItemIds == if l.id.Ok? then old(caches.sceneItemIds)[SceneItemKey(f.scene, f.source) := l.id.value]
                                   else old(caches.sceneItemIds)
    ensures svc.obs.closeRequests == old(svc.obs.closeRequests)
  {
    ghost var n := |svc.obs.calls|;
    ghost var l := ZoomLookup(svc.obs.answer, n, caches.sourceResolutions, caches.sceneItemIds, f);
    ghost var e := ZoomExchange(svc.obs.answer, n, svc.ready, caches.sourceResolutions, caches.sceneItemIds, f);
    var cam, id := LookUp(svc.obs, caches, f);
    if id.Err? {
      assert e == Exchange(l.calls, Reply(500, Text(id.error)));
      res.Send(Reply(500, Text(id.error)));
      return;
    }
    var crops := CropsForFocus(cam.camW, cam.camH, f.zoom, f.x, f.y);
    ghost var a := TransformAttempt(svc.obs.answer, n + |l.calls|, svc.ready, f.scene, id.value, crops);
    assert e.calls == l.calls + a.calls;
    var failure := Transform(svc, f.scene, id.value, crops);
    AppendAssociative(old(svc.obs.calls), l.calls, a.calls);
    if failure.Some? {
      res.Send(Reply(500, Text(failure.value)));
      return;
    }
    assert svc.obs.calls[|svc.obs.calls| - 2..] == [TransformCall(f.scene, id.value, crops), SwitchCall(f.scene)];
    res.Send(Reply(200, JsonBody(ZoomSummary(f, cam, crops))));
  }

  /** The two lookups of a zoom: the source's size, then the scene item id. */
  method LookUp(obs: Peer, caches: Caches, f: Focus) returns (cam: Resolution, id: Result<Json>)
    modifies obs, caches
    ensures old(obs.calls) <= obs.calls && obs.closeRequests == old(obs.closeRequests)
    ensures f.source in caches.sourceResolutions && cam == caches.sourceResolutions[f.source]
    ensures id.Ok? ==> var key := SceneItemKey(f.scene, f.source);
              key in caches.sceneItemIds && id.value == caches.sceneItemIds[key]
    ensures var l := ZoomLookup(obs.answer, |old(obs.calls)|, old(caches.sourceResolutions), old(caches.sceneItemIds), f);
            obs.calls == old(obs.calls) + l.calls && cam == l.cam && id == l.id
    ensures caches.sourceResolutions == old(caches.sourceResolutions)[f.source := cam]
    ensures caches.sceneItemIds == if id.Ok? then old(caches.sceneItemIds)[SceneItemKey(f.scene, f.source) := id.value]
                                   else old(caches.sceneItemIds)
  {
    cam := caches.GetSourceResolution(f.source, obs);
    id := caches.GetSceneItemId(f.scene, f.source, obs);
  }

  /** Apply the crops to the scene item, then make its scene the program
      scene; the first failure ends it. */
  method Transform(svc: ObsService, scene: string, sceneItemId: Json, crops: Crops) returns (failure: Option<string>)
    modifies svc.obs
    ensures old(svc.obs.calls) <= svc.obs.calls && svc.obs.closeRequests == old(svc.obs.closeRequests)
    ensures failure.None? ==> svc.obs.calls == old(svc.obs.calls) + [TransformCall(scene, sceneItemId, crops), SwitchCall(scene)]
    ensures var a := TransformAttempt(svc.obs.answer, |old(svc.obs.calls)|, svc.ready, scene, sceneItemId, crops);
            svc.obs.calls == old(svc.obs.calls) + a.calls && failure == a.failure
  {
    var transform := TransformCall(scene, sceneItemId, crops);
    var applied := svc.CallObs(transform.requestType, Some(transform.requestData));
    if applied.Failed? {
      return Some(applied.message);
    }
    var switch := SwitchCall(scene);
    var switched := svc.CallObs(switch.requestType, Some(switch.requestData));
    if switched.Failed? {
      return Some(switched.message);
    }
    failure := None;
  }

  /** For a source reporting whole-pixel sizes and a zoom of at least 1, the crops a successful zoom sends
      and reports are non-negative whole numbers. */
  lemma ZoomCropsWholeAndInside(cam: Resolution, f: Focus)
    requires f.zoom >= 1.0 && cam.camW >= 0.0 && cam.camH >= 0.0 && Integral(cam.camW) && Integral(cam.camH)
    ensures var c := CropsForFocus(cam.camW, cam.camH, f.zoom, f.x, f.y);
      c.cropLeft >= 0.0 && c.cropRight >= 0.0 && c.cropTop >= 0.0 && c.cropBottom >= 0.0 &&
      Integral(c.cropLeft) && Integral(c.cropRight) && Integral(c.cropTop) && Integral(c.cropBottom)
  {
    ZoomInFits(cam.camW, f.zoom);
    ZoomInFits(cam.camH, f.zoom);
    CropsInsideFrame(cam.camW, cam.camH, f.zoom, f.x, f.y);
    CropsIntegral(cam.camW, cam.camH, f.zoom, f.x, f.y);
  }

  /** `POST /zoom`: 503 while offline, 400 for an invalid body, otherwise
      the zoom itself. */
  method PostZoom(svc: ObsService, caches: Caches, body: Json, res: Response)
    requires res.reply == None && ZoomBodyModelled(body)
    modifies svc.obs, caches, res
    ensures res.reply.Some?
    ensures !svc.ready ==>
              res.reply == Some(Offline) && svc.obs.calls == old(svc.obs.calls) && unchanged(caches)
    ensures svc.ready && ParseZoom(body).None? ==>
              res.reply == Some(MissingFields) && svc.obs.calls == old(svc.obs.calls) && unchanged(caches)
    ensures svc.ready && ParseZoom(body).Some? ==>
              var f := ParseZoom(body).value;
              f.source in caches.sourceResolutions &&
              old(svc.obs.calls) <= svc.obs.calls &&
              (res.reply.value.status == 200 || (res.reply.value.status == 500 && res.reply.value.body.Text?)) &&
              (res.reply.value.status == 200 ==>
                 var cam := caches.sourceResolutions[f.source];
                 var key := SceneItemKey(f.scene, f.source);
                 var crops := CropsForFocus(cam.camW, cam.camH, f.zoom, f.x, f.y);
                 key in caches.sceneItemIds && |svc.obs.calls| >= 2 &&
                 svc.obs.calls[|svc.obs.calls| - 2..] == [TransformCall(f.scene, caches.sceneItemIds[key], crops), SwitchCall(f.scene)] &&
                 res.reply == Some(Reply(200, JsonBody(ZoomSummary(f, cam, crops)))))
    ensures svc.ready && ParseZoom(body).Some? ==>
              var e := ZoomExchange(svc.obs.answer, |old(svc.obs.calls)|, true,
                                    old(caches.sourceResolutions), old(caches.sceneItemIds), ParseZoom(body).value);
              svc.obs.calls == old(svc.obs.calls) + e.calls && res.reply == Some(e.reply)
    ensures svc.obs.closeRequests == old(svc.obs.closeRequests)
  {
    var ready := svc.IsReady();
    if !ready {
      res.Send(Offline);
      return;
    }
    var parsed := ParseZoom(body);
    if parsed.None? {
      res.Send(MissingFields);
      return;
    }
    ApplyZoom(svc, caches, parsed.value, res);
  }
}
