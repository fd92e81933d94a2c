/** Zoom geometry and the two lookup caches (src/utils/obsHelpers.js).

    Numbers are exact reals; `Math.round(v)` is `Floor(v + 1/2)`, which is
    what JavaScript computes for every finite v. */
module ObsHelpers {
  import opened Values
  import opened ObsWebSocket

  // ---------------------------------------------------------------------
  // cropsForFocus

  function Round(v: real): (n: int)
    ensures v - 0.5 < n as real <= v + 0.5
  {
    (v + 0.5).Floor
  }

  lemma RoundMonotone(a: real, b: real)
    requires a <= b
    ensures Round(a) <= Round(b)
  {
  }

  predicate Integral(v: real) {
    v == v.Floor as real
  }

  lemma {:induction false} RoundIntegral(v: real)
    requires Integral(v)
    ensures Round(v) as real == v
  {
    var n := v.Floor;
    var f := (v + 0.5).Floor;
    assert f as real <= v + 0.5 < f as real + 1.0;
    assert n as real == v;
    assert f <= n && n <= f;
  }

  lemma IntAsRealIntegral(n: int)
    ensures Integral(n as real)
  {
  }

  function MinReal(a: real, b: real): real { if a <= b then a else b }
  function MaxReal(a: real, b: real): real { if a <= b then b else a }

  datatype Crops = Crops(cropLeft: real, cropRight: real, cropTop: real, cropBottom: real)

  /** The side of the zoom window: `Math.round(cam / zoom)`. */
  function Window(cam: real, zoom: real): real
    requires zoom != 0.0
  {
    Round(cam / zoom) as real
  }

  /** The offset of a window of size `win` centred on the point `centre`, before clamping. */
  function CentredOffset(centre: real, win: real): real {
    Round(centre) as real - Round(win / 2.0) as real
  }

  /** `Math.max(0, Math.min(offset, cam - win))` */
  function Clamp(offset: real, cam: real, win: real): real {
    MaxReal(0.0, MinReal(offset, cam - win))
  }

  /** The margins to crop so that a `camW/zoom` by `camH/zoom` window centred
      on (x, y) remains, shifted (never resized) to stay inside the frame. */
  function CropsForFocus(camW: real, camH: real, zoom: real, x: real, y: real): (c: Crops)
    requires zoom != 0.0
    ensures c.cropLeft >= 0.0 && c.cropTop >= 0.0
    ensures c.cropLeft + Window(camW, zoom) + c.cropRight == camW
    ensures c.cropTop + Window(camH, zoom) + c.cropBottom == camH
  {
    var winW := Window(camW, zoom);
    var winH := Window(camH, zoom);
    var left := Clamp(CentredOffset(x * camW, winW), camW, winW);
    var top := Clamp(CentredOffset(y * camH, winH), camH, winH);
    Crops(left, camW - (left + winW), top, camH - (top + winH))
  }

  /** The clamp along one axis, where `offset` is the centred offset and the
      window has side `win` in a frame of side `cam`. */
  lemma ClampAxis(offset: real, cam: real, win: real)
    ensures Clamp(offset, cam, win) >= 0.0
    ensures win <= cam ==> cam - (Clamp(offset, cam, win) + win) >= 0.0
    ensures 0.0 <= offset <= cam - win ==> Clamp(offset, cam, win) == offset
    ensures win <= cam && offset <= 0.0 ==> Clamp(offset, cam, win) == 0.0
    ensures win <= cam && offset >= cam - win ==> cam - (Clamp(offset, cam, win) + win) == 0.0
  {
  }

  /** A window no larger than the frame lies wholly inside it: no margin is negative. */
  lemma CropsInsideFrame(camW: real, camH: real, zoom: real, x: real, y: real)
    requires zoom != 0.0
    requires Window(camW, zoom) <= camW && Window(camH, zoom) <= camH
    ensures var c := CropsForFocus(camW, camH, zoom, x, y);
      c.cropRight >= 0.0 && c.cropBottom >= 0.0
  {
    ClampAxis(CentredOffset(x * camW, Window(camW, zoom)), camW, Window(camW, zoom));
    ClampAxis(CentredOffset(y * camH, Window(camH, zoom)), camH, Window(camH, zoom));
  }

  /** For an integral, non-negative frame, a zoom of at least 1 gives a window that fits. */
  lemma {:induction false} ZoomInFits(cam: real, zoom: real)
    requires cam >= 0.0 && Integral(cam) && zoom >= 1.0
    ensures Window(cam, zoom) <= cam
  {
    assert cam / zoom <= cam by {
      assert cam / zoom * zoom == cam;
      assert cam / zoom >= 0.0;
      assert cam / zoom * zoom >= cam / zoom * 1.0;
    }
    RoundMonotone(cam / zoom, cam);
    RoundIntegral(cam);
  }

  /** When the centred window already fits, it is not shifted at all. */
  lemma CropsCentredWhenFitting(camW: real, camH: real, zoom: real, x: real, y: real)
    requires zoom != 0.0
    requires 0.0 <= CentredOffset(x * camW, Window(camW, zoom)) <= camW - Window(camW, zoom)
    requires 0.0 <= CentredOffset(y * camH, Window(camH, zoom)) <= camH - Window(camH, zoom)
    ensures var c := CropsForFocus(camW, camH, zoom, x, y);
      c.cropLeft == Round(x * camW) as real - Round(Window(camW, zoom) / 2.0) as real &&
      c.cropTop == Round(y * camH) as real - Round(Window(camH, zoom) / 2.0) as real
  {
    ClampAxis(CentredOffset(x * camW, Window(camW, zoom)), camW, Window(camW, zoom));
    ClampAxis(CentredOffset(y * camH, Window(camH, zoom)), camH, Window(camH, zoom));
  }

  /** A window that would stick out past an edge is pushed back flush against that edge. */
  lemma CropsFlushAgainstEdge(camW: real, camH: real, zoom: real, x: real, y: real)
    requires zoom != 0.0
    requires Window(camW, zoom) <= camW && Window(camH, zoom) <= camH
    ensures var c := CropsForFocus(camW, camH, zoom, x, y);
      (CentredOffset(x * camW, Window(camW, zoom)) <= 0.0 ==> c.cropLeft == 0.0) &&
      (CentredOffset(x * camW, Window(camW, zoom)) >= camW - Window(camW, zoom) ==> c.cropRight == 0.0) &&
      (CentredOffset(y * camH, Window(camH, zoom)) <= 0.0 ==> c.cropTop == 0.0) &&
      (CentredOffset(y * camH, Window(camH, zoom)) >= camH - Window(camH, zoom) ==> c.cropBottom == 0.0)
  {
    ClampAxis(CentredOffset(x * camW, Window(camW, zoom)), camW, Window(camW, zoom));
    ClampAxis(CentredOffset(y * camH, Window(camH, zoom)), camH, Window(camH, zoom));
  }

  /** Integral frame sizes give whole-pixel margins. */
  lemma {:induction false} CropsIntegral(camW: real, camH: real, zoom: real, x: real, y: real)
    requires zoom != 0.0 && Integral(camW) && Integral(camH)
    ensures var c := CropsForFocus(camW, camH, zoom, x, y);
      Integral(c.cropLeft) && Integral(c.cropRight) && Integral(c.cropTop) && Integral(c.cropBottom)
  {
    CropsByAxis(camW, camH, zoom, x, y);
    AxisIntegral(camW, zoom, x * camW);
    AxisIntegral(camH, zoom, y * camH);
  }

  /** The crops, axis by axis: the clamped offset, and what is left of the frame past the window. */
  lemma CropsByAxis(camW: real, camH: real, zoom: real, x: real, y: real)
    requires zoom != 0.0
    ensures var c := CropsForFocus(camW, camH, zoom, x, y);
      var winW, winH := Window(camW, zoom), Window(camH, zoom);
      c.cropLeft == Clamp(CentredOffset(x * camW, winW), camW, winW) && c.cropRight == camW - (c.cropLeft + winW) &&
      c.cropTop == Clamp(CentredOffset(y * camH, winH), camH, winH) && c.cropBottom == camH - (c.cropTop + winH)
  {
  }

  /** Along one axis, both margins are whole numbers when the frame is. */
  lemma AxisIntegral(cam: real, zoom: real, centre: real)
    requires zoom != 0.0 && Integral(cam)
    ensures var win := Window(cam, zoom);
      Integral(Clamp(CentredOffset(centre, win), cam, win)) &&
      Integral(cam - (Clamp(CentredOffset(centre, win), cam, win) + win))
  {
    var lo, hi := MarginsIntegral(cam, Window(cam, zoom), centre, Round(cam / zoom));
    IntAsRealIntegral(lo);
    IntAsRealIntegral(hi);
  }

  /** The two margins along one axis are whole numbers when the frame is. */
  lemma MarginsIntegral(cam: real, win: real, centre: real, w: int) returns (lo: int, hi: int)
    requires Integral(cam) && win == w as real
    ensures Clamp(CentredOffset(centre, win), cam, win) == lo as real
    ensures cam - (Clamp(CentredOffset(centre, win), cam, win) + win) == hi as real
  {
    var n := cam.Floor;
    var offset := Round(centre) - Round(win / 2.0);
    lo := if offset <= n - w then offset else n - w;
    lo := if 0 <= lo then lo else 0;
    hi := n - (lo + w);
  }

  /** Focusing the top-left corner of a 1920x1080 frame at zoom 2. */
  lemma CropsTopLeftCorner()
    ensures CropsForFocus(1920.0, 1080.0, 2.0, 0.0, 0.0) == Crops(0.0, 960.0, 0.0, 540.0)
  {
    assert Round(960.0) == 960 && Round(540.0) == 540;
    assert Round(480.0) == 480 && Round(270.0) == 270 && Round(0.0) == 0;
  }

  // ---------------------------------------------------------------------
  // Source resolution

  datatype Resolution = Resolution(camW: real, camH: real)

  const DefaultResolution: Resolution := Resolution(1920.0, 1080.0)

  /** The `inputSettings.width` / `.height` of a `GetInputSettings` reply. */
  function InputSetting(result: Json, name: string): Json {
    Field(Field(result, "inputSettings"), name)
  }

  /** `getSourceResolutionFromOBS` once the call has settled: the reported
      size when both sides are truthy numbers, 1920x1080 otherwise (a failed
      call, a null reply or missing settings all end in the `catch`). */
  function ResolutionFromReply(r: PeerReply): (res: Resolution)
    ensures r.Failed? ==> res == DefaultResolution
    ensures r.Answered? && (Falsy(InputSetting(r.result, "width")) || Falsy(InputSetting(r.result, "height"))) ==>
              res == DefaultResolution
    ensures res != DefaultResolution ==>
              r.Answered? && res.camW != 0.0 && res.camH != 0.0 &&
              InputSetting(r.result, "width") == JNum(res.camW) &&
              InputSetting(r.result, "height") == JNum(res.camH)
    ensures r.Answered? ==>
              var w := InputSetting(r.result, "width");
              var h := InputSetting(r.result, "height");
              w.JNum? && h.JNum? && w.n != 0.0 && h.n != 0.0 ==> res == Resolution(w.n, h.n)
  {
    if r.Failed? then DefaultResolution
    else
      var w := InputSetting(r.result, "width");
      var h := InputSetting(r.result, "height");
      if w.JNum? && h.JNum? && w.n != 0.0 && h.n != 0.0 then Resolution(w.n, h.n)
      else DefaultResolution
  }

  function InputSettingsCall(sourceName: string): Call {
    Call("GetInputSettings", JObj(map["inputName" := JStr(sourceName)]))
  }

  /** `getSourceResolutionFromOBS(sourceName, obs)` */
  method GetSourceResolutionFromObs(sourceName: string, obs: Peer) returns (res: Resolution)
    modifies obs
    ensures obs.calls == old(obs.calls) + [InputSettingsCall(sourceName)]
    ensures res == ResolutionFromReply(obs.answer(|old(obs.calls)|, InputSettingsCall(sourceName)))
    ensures obs.closeRequests == old(obs.closeRequests)
  {
    var reply := obs.Request(InputSettingsCall(sourceName));
    res := ResolutionFromReply(reply);
  }

  // ---------------------------------------------------------------------
  // Scene item ids

  /** The cache key `${sceneName}-${sourceName}`. */
  function SceneItemKey(sceneName: string, sourceName: string): string {
    sceneName + "-" + sourceName
  }

  /** The key does not tell pairs apart whose names contain '-': both
      ("a-b", "c") and ("a", "b-c") are stored under "a-b-c". */
  lemma SceneItemKeyAmbiguous()
    ensures SceneItemKey("a-b", "c") == SceneItemKey("a", "b-c")
    ensures ("a-b", "c") != ("a", "b-c")
  {
  }

  function SceneItemIdCall(sceneName: string, sourceName: string): Call {
    Call("GetSceneItemId", JObj(map["sceneName" := JStr(sceneName), "sourceName" := JStr(sourceName)]))
  }

  /** Stands for the TypeError the JavaScript engine throws when `sceneItemId`
      is destructured out of a null reply; the engine's exact wording is not
      modelled, only that the lookup fails with this error. */
  const NullSceneItem: string := "Cannot destructure property 'sceneItemId' of null"

  /** The two module-level caches of obsHelpers.js. */
  class Caches {
    /** `sourceResolutionsCache` */
    var sourceResolutions: map<string, Resolution>
    /** `sceneItemIdCache` */
    var sceneItemIds: map<string, Json>

    constructor()
      ensures sourceResolutions == map[] && sceneItemIds == map[]
    {
      sourceResolutions := map[];
      sceneItemIds := map[];
    }

    /** `getSourceResolution(sourceName, obs)`: a cached resolution (always an
        object, hence truthy) is returned without asking OBS; otherwise the
        fetched one is stored under `sourceName`. */
    method GetSourceResolution(sourceName: string, obs: Peer) returns (res: Resolution)
      modifies this, obs
      ensures sourceName in old(sourceResolutions) ==>
                res == old(sourceResolutions)[sourceName] && obs.calls == old(obs.calls) &&
                sourceResolutions == old(sourceResolutions)
      ensures sourceName !in old(sourceResolutions) ==>
                obs.calls == old(obs.calls) + [InputSettingsCall(sourceName)] &&
                res == ResolutionFromReply(obs.answer(|old(obs.calls)|, InputSettingsCall(sourceName))) &&
                sourceResolutions == old(sourceResolutions)[sourceName := res]
      ensures sceneItemIds == old(sceneItemIds) && obs.closeRequests == old(obs.closeRequests)
    {
      if sourceName in sourceResolutions {
        return sourceResolutions[sourceName];
      }
      res := GetSourceResolutionFromObs(sourceName, obs);
      sourceResolutions := sourceResolutions[sourceName := res];
    }

    /** `getSceneItemId(sceneName, sourceName, obs)`: a truthy cached id is
        returned as is; a missing or falsy one (such as 0) is fetched again and
        stored, whatever it is. A failed call, or a null reply that cannot be
        destructured, is passed on to the caller. */
    method GetSceneItemId(sceneName: string, sourceName: string, obs: Peer) returns (r: Result<Json>)
      modifies this, obs
      ensures var key := SceneItemKey(sceneName, sourceName);
        if key in old(sceneItemIds) && !Falsy(old(sceneItemIds)[key]) then
          r == Ok(old(sceneItemIds)[key]) && obs.calls == old(obs.calls) && sceneItemIds == old(sceneItemIds)
        else
          var reply := obs.answer(|old(obs.calls)|, SceneItemIdCall(sceneName, sourceName));
          obs.calls == old(obs.calls) + [SceneItemIdCall(sceneName, sourceName)] &&
          (reply.Failed? ==> r == Err(reply.message) && sceneItemIds == old(sceneItemIds)) &&
          (reply == Answered(JNull) ==> r == Err(NullSceneItem) && sceneItemIds == old(sceneItemIds)) &&
          (reply.Answered? && reply.result != JNull ==>
             r == Ok(Field(reply.result, "sceneItemId")) &&
             sceneItemIds == old(sceneItemIds)[key := Field(reply.result, "sceneItemId")])
      ensures r.Ok? ==> var key := SceneItemKey(sceneName, sourceName);
        key in sceneItemIds && r.value == sceneItemIds[key]
      ensures sourceResolutions == old(sourceResolutions) && obs.closeRequests == old(obs.closeRequests)
    {
      var key := SceneItemKey(sceneName, sourceName);
      if key !in sceneItemIds || Falsy(sceneItemIds[key]) {
        var reply := obs.Request(SceneItemIdCall(sceneName, sourceName));
        if reply.Failed? {
          return Err(reply.message);
        }
        if reply.result == JNull {
          return Err(NullSceneItem);
        }
        sceneItemIds := sceneItemIds[key := Field(reply.result, "sceneItemId")];
      }
      r := Ok(sceneItemIds[key]);
    }

    /** `clearCaches()`: empties both caches. */
    method ClearCaches()
      modifies this
      ensures sourceResolutions == map[] && sceneItemIds == map[]
    {
      sourceResolutions := map[];
      sceneItemIds := map[];
    }
  }
}
