/** The rest of pyPipe.py around `assess_risk`: the S3 key format, the upload
    retry loop, the frame window of `save_clip`, and the once-only alert
    latch of `main`. Seconds are abstracted to whole frame numbers. */
module Pipeline {
  import opened Wrappers
  import opened Risk

  // ---------------------------------------------------------------- S3 key

  /** `make_s3_key`; `datePrefix` is `DATE_PREFIX`, the start date as YYYYMMDD. */
  function MakeS3Key(datePrefix: string, eventId: string, cameraId: string, cls: string, level: string): (key: string)
    ensures |key| > |datePrefix + "/" + cameraId + "/clips/"|
    ensures key[..|datePrefix + "/" + cameraId + "/clips/"|] == datePrefix + "/" + cameraId + "/clips/"
    ensures key[|key| - 4..] == ".mp4"
  {
    datePrefix + "/" + cameraId + "/clips/" + eventId + "_" + cls + "_" + level + ".mp4"
  }

  /** The segments of a path between '/' separators. */
  function Segments(s: string): (parts: seq<string>)
    ensures |parts| >= 1
    decreases |s|
  {
    if s == [] then [""]
    else
      var rest := Segments(s[1..]);
      if s[0] == '/' then [""] + rest else [[s[0]] + rest[0]] + rest[1..]
  }

  lemma {:induction false} SegmentsOfPlain(s: string)
    requires '/' !in s
    ensures Segments(s) == [s]
    decreases |s|
  {
    if s != [] {
      SegmentsOfPlain(s[1..]);
      assert [s[0]] + s[1..] == s;
    }
  }

  lemma {:induction false} SegmentsOfJoin(a: string, b: string)
    requires '/' !in a
    ensures Segments(a + "/" + b) == [a] + Segments(b)
    decreases |a|
  {
    if a == [] {
      assert a + "/" + b == ['/'] + b;
      assert (['/'] + b)[1..] == b;
    } else {
      assert (a + "/" + b)[1..] == a[1..] + "/" + b;
      SegmentsOfJoin(a[1..], b);
      assert [a[0]] + a[1..] == a;
    }
  }

  /** The clip's file name, `{event_id}_{cls}_{level}.mp4`, holds no '/'
      when its parts hold none. */
  lemma PlainFileName(eventId: string, cls: string, level: string)
    requires '/' !in eventId && '/' !in cls && '/' !in level
    ensures '/' !in eventId + "_" + cls + "_" + level + ".mp4"
  {
  }

  lemma KeyAsJoins(datePrefix: string, cameraId: string, file: string)
    ensures datePrefix + "/" + cameraId + "/clips/" + file
            == datePrefix + "/" + (cameraId + "/" + ("clips" + "/" + file))
  {
  }

  /** When no component holds a '/', the key is exactly four path segments:
      the date, the camera, "clips", and the clip's file name. */
  lemma KeySegments(datePrefix: string, eventId: string, cameraId: string, cls: string, level: string)
    requires '/' !in datePrefix && '/' !in cameraId && '/' !in eventId && '/' !in cls && '/' !in level
    ensures Segments(MakeS3Key(datePrefix, eventId, cameraId, cls, level))
            == [datePrefix, cameraId, "clips", eventId + "_" + cls + "_" + level + ".mp4"]
  {
    var file := eventId + "_" + cls + "_" + level + ".mp4";
    PlainFileName(eventId, cls, level);
    var y := "clips" + "/" + file;
    var x := cameraId + "/" + y;
    KeyAsJoins(datePrefix, cameraId, file);
    assert MakeS3Key(datePrefix, eventId, cameraId, cls, level) == datePrefix + "/" + x;
    SegmentsOfPlain(file);
    SegmentsOfJoin("clips", file);
    SegmentsOfJoin(cameraId, y);
    SegmentsOfJoin(datePrefix, x);
  }

  // ------------------------------------------------------ upload with retry

  /** What one round of presign-then-PUT does: the presign request raises,
      the PUT raises, or the PUT answers with a status and a body text. */
  datatype PutAttempt = PresignFailed | PutFailed | Put(fileUrl: string, status: int, text: string)

  datatype UploadFailure = PresignError | PutError | BadStatus(status: int, text: string)

  /** `(True, file_url)`, or the exception the function raises. */
  datatype UploadResult = Uploaded(fileUrl: string) | Failed(why: UploadFailure)

  predicate Stored(a: PutAttempt) {
    a.Put? && (a.status == 200 || a.status == 201)
  }

  predicate AuthRejected(a: PutAttempt) {
    a.Put? && (a.status == 401 || a.status == 403)
  }

  function FailureOf(a: PutAttempt): UploadFailure {
    match a
    case PresignFailed => PresignError
    case PutFailed => PutError
    case Put(_, status, text) => BadStatus(status, text)
  }

  function RetryBound(maxRetry: int): nat {
    if maxRetry > 0 then maxRetry else 0
  }

  /** `upload_to_s3_with_retry`; `server(i)` is what the i-th round gets. */
  method UploadWithRetry(server: nat -> PutAttempt, maxRetry: int) returns (result: UploadResult, rounds: nat)
    ensures 1 <= rounds <= RetryBound(maxRetry) + 1
    ensures forall i :: 0 <= i < rounds - 1 ==> AuthRejected(server(i))
    ensures result.Uploaded? <==> Stored(server(rounds - 1))
    ensures result.Uploaded? ==> result.fileUrl == server(rounds - 1).fileUrl
    ensures result.Failed? ==> result.why == FailureOf(server(rounds - 1))
    ensures result.Failed? && AuthRejected(server(rounds - 1)) ==> rounds - 1 >= maxRetry
  {
    var attempt: nat := 0;
    while true
      invariant attempt <= RetryBound(maxRetry)
      invariant forall i :: 0 <= i < attempt ==> AuthRejected(server(i))
      decreases RetryBound(maxRetry) - attempt
    {
      var a := server(attempt);
      if Stored(a) {
        return Uploaded(a.fileUrl), attempt + 1;
      }
      if AuthRejected(a) && attempt < maxRetry {
        attempt := attempt + 1;
        continue;
      }
      return Failed(FailureOf(a)), attempt + 1;
    }
  }

  // ------------------------------------------------------------- clip window

  function Max(a: int, b: int): int { if a >= b then a else b }
  function Min(a: int, b: int): int { if a <= b then a else b }

  /** The frame window of `save_clip`. `startFrame` is `int(start_sec * fps)`,
      `endFrame` is `int(end_sec * fps)` when an end is given, and
      `minFrames` is `int(3 * fps)`. */
  function ClipWindow(startFrame: int, endFrame: Option<int>, totalFrames: int, minFrames: nat): (w: (int, int))
    ensures w.0 == Max(startFrame, 0)
    ensures w.1 <= totalFrames
    ensures var e := if endFrame.None? then totalFrames else Min(endFrame.value, totalFrames);
            if e > w.0 then w.1 == e else w.1 == Min(totalFrames, w.0 + minFrames)
    ensures w.0 < totalFrames && minFrames > 0 ==> w.0 < w.1
  {
    var start := Max(startFrame, 0);
    var end := if endFrame.None? then totalFrames else Min(endFrame.value, totalFrames);
    if end <= start then (start, Min(totalFrames, start + minFrames)) else (start, end)
  }

  /** The copy loop of `save_clip`: frames from `start` while below `end`,
      stopping early when the capture has no more (`readable` frames can be
      read after the seek). */
  method CopyFrames(start: int, end: int, readable: nat) returns (written: seq<int>)
    ensures |written| == Min(Max(end - start, 0), readable)
    ensures forall i :: 0 <= i < |written| ==> written[i] == start + i
  {
    written := [];
    var cur := start;
    while cur < end
      invariant cur - start == |written| <= readable
      invariant |written| <= Max(end - start, 0)
      invariant forall i :: 0 <= i < |written| ==> written[i] == start + i
    {
      if cur - start == readable {
        break;
      }
      written := written + [cur];
      cur := cur + 1;
    }
  }

  /** `save_clip` up to writing the frames: which frames end up in the clip. */
  method SaveClip(startFrame: int, endFrame: Option<int>, totalFrames: int, minFrames: nat, readable: nat)
    returns (written: seq<int>)
    ensures var w := ClipWindow(startFrame, endFrame, totalFrames, minFrames);
            && |written| == Min(Max(w.1 - w.0, 0), readable)
            && forall i :: 0 <= i < |written| ==> written[i] == w.0 + i
    ensures forall i :: 0 <= i < |written| ==> 0 <= written[i] < totalFrames
  {
    var w := ClipWindow(startFrame, endFrame, totalFrames, minFrames);
    written := CopyFrames(w.0, w.1, readable);
  }

  // ------------------------------------------------------------ alert latch

  /** The histories and the per-frame `(level, main_cls)` after `frames`;
      the i-th frame (from 0) is assessed with `frame_idx == i + 1`. */
  function Replay(frames: seq<seq<Box>>): (r: (Tracks, seq<(Level, string)>))
    ensures |r.1| == |frames|
    decreases |frames|
  {
    if frames == [] then (map[], [])
    else
      var prev := Replay(frames[..|frames| - 1]);
      var next := Assess(prev.0, frames[|frames| - 1], |frames|);
      (next.0, prev.1 + [next.1])
  }

  /** The index of the first HIGH verdict, or the length when there is none. */
  function FirstHigh(verdicts: seq<(Level, string)>): (k: nat)
    ensures k <= |verdicts|
    ensures forall j :: 0 <= j < k ==> verdicts[j].0 != HIGH
    ensures k < |verdicts| ==> verdicts[k].0 == HIGH
    decreases |verdicts|
  {
    if verdicts == [] then 0
    else if verdicts[0].0 == HIGH then 0
    else 1 + FirstHigh(verdicts[1..])
  }

  lemma {:induction false} FirstHighAppend(verdicts: seq<(Level, string)>, v: (Level, string))
    ensures FirstHigh(verdicts) < |verdicts| ==> FirstHigh(verdicts + [v]) == FirstHigh(verdicts)
    ensures FirstHigh(verdicts) == |verdicts| && v.0 == HIGH ==> FirstHigh(verdicts + [v]) == |verdicts|
    ensures FirstHigh(verdicts) == |verdicts| && v.0 != HIGH ==> FirstHigh(verdicts + [v]) == |verdicts| + 1
    decreases |verdicts|
  {
    if verdicts != [] {
      assert (verdicts + [v])[1..] == verdicts[1..] + [v];
      FirstHighAppend(verdicts[1..], v);
    }
  }

  /** What `main` reports when a HIGH frame arms the latch: the frame,
      where the clip starts (ten seconds earlier, not before 0), the class. */
  datatype Alert = Alert(frameIdx: nat, clipStartFrame: int, primary: string)

  /** One frame of the latch: the alert this verdict raises when none has
      been raised yet and it is HIGH, else the alerts so far. */
  function Latch(earlier: seq<Alert>, v: (Level, string), frameIdx: nat, tenSeconds: nat): (alerts: seq<Alert>)
    ensures earlier != [] ==> alerts == earlier
    ensures earlier == [] ==> (alerts != [] <==> v.0 == HIGH)
    ensures earlier == [] && v.0 == HIGH ==>
              && |alerts| == 1 && alerts[0].frameIdx == frameIdx && alerts[0].primary == v.1
              && alerts[0].clipStartFrame == Max(0, frameIdx - tenSeconds) && alerts[0].clipStartFrame >= 0
  {
    if earlier == [] && v.0 == HIGH then [Alert(frameIdx, Max(0, frameIdx - tenSeconds), v.1)]
    else earlier
  }

  /** The latch over a run of verdicts: an alert at the first HIGH frame, and
      none after it because `clip_triggered` is already set. */
  function Alerts(verdicts: seq<(Level, string)>, tenSeconds: nat): (alerts: seq<Alert>)
    ensures |alerts| <= 1
    decreases |verdicts|
  {
    if verdicts == [] then []
    else Latch(Alerts(verdicts[..|verdicts| - 1], tenSeconds), verdicts[|verdicts| - 1], |verdicts|, tenSeconds)
  }

  /** The latch raises exactly one alert when some frame is HIGH, at the
      first such frame, and none otherwise. */
  lemma {:induction false} AlertAtFirstHigh(verdicts: seq<(Level, string)>, tenSeconds: nat)
    ensures var k := FirstHigh(verdicts);
            Alerts(verdicts, tenSeconds) ==
              if k < |verdicts| then [Alert(k + 1, Max(0, k + 1 - tenSeconds), verdicts[k].1)] else []
    decreases |verdicts|
  {
    if verdicts != [] {
      var init := verdicts[..|verdicts| - 1];
      var v := verdicts[|verdicts| - 1];
      assert init + [v] == verdicts;
      AlertAtFirstHigh(init, tenSeconds);
      FirstHighAppend(init, v);
      var k := FirstHigh(init);
      if k < |init| {
        assert verdicts[k] == init[k];
      }
    }
  }

  lemma ReplayStep(frames: seq<seq<Box>>, n: nat)
    requires n < |frames|
    ensures var prev := Replay(frames[..n]);
            var next := Assess(prev.0, frames[n], n + 1);
            Replay(frames[..n + 1]) == (next.0, prev.1 + [next.1])
  {
    assert frames[..n + 1][..n] == frames[..n];
  }

  lemma AlertsStep(verdicts: seq<(Level, string)>, v: (Level, string), tenSeconds: nat)
    ensures Alerts(verdicts + [v], tenSeconds) == Latch(Alerts(verdicts, tenSeconds), v, |verdicts| + 1, tenSeconds)
  {
  }

  lemma LatchArms(earlier: seq<Alert>, triggered: bool, v: (Level, string), frameIdx: nat, tenSeconds: nat)
    requires triggered <==> earlier != []
    ensures v.0 == HIGH && !triggered ==>
              Latch(earlier, v, frameIdx, tenSeconds) == earlier + [Alert(frameIdx, Max(0, frameIdx - tenSeconds), v.1)]
    ensures !(v.0 == HIGH && !triggered) ==> Latch(earlier, v, frameIdx, tenSeconds) == earlier
  {
  }

  /** The frame loop of `main`: assess each frame, and on the first HIGH
      verdict (and only then) raise the alert. `tenSeconds` is `10 * fps`. */
  method Monitor(frames: seq<seq<Box>>, tenSeconds: nat) returns (alerts: seq<Alert>)
    ensures |alerts| <= 1
    ensures alerts == Alerts(Replay(frames).1, tenSeconds)
  {
    var memory := new TrackMemory();
    var clipTriggered := false;
    alerts := [];
    var frameIdx := 0;
    ghost var verdicts: seq<(Level, string)> := [];
    while frameIdx < |frames|
      invariant 0 <= frameIdx <= |frames|
      invariant memory.tracks == Replay(frames[..frameIdx]).0
      invariant verdicts == Replay(frames[..frameIdx]).1
      invariant alerts == Alerts(verdicts, tenSeconds)
      invariant clipTriggered <==> alerts != []
    {
      ReplayStep(frames, frameIdx);
      var level, mainCls := AssessRisk(memory, frames[frameIdx], frameIdx + 1);
      ghost var before := verdicts;
      assert |before| == frameIdx;
      AlertsStep(before, (level, mainCls), tenSeconds);
      verdicts := before + [(level, mainCls)];
      frameIdx := frameIdx + 1;
      LatchArms(alerts, clipTriggered, (level, mainCls), frameIdx, tenSeconds);
      if level == HIGH && !clipTriggered {
        clipTriggered := true;
        alerts := alerts + [Alert(frameIdx, Max(0, frameIdx - tenSeconds), mainCls)];
      }
    }
    assert frames[..|frames|] == frames;
  }
}
