/** `assess_risk` of pyPipe.py and the per-class history it keeps. The
    detector's floating-point outputs are abstracted: a box carries
    `int(conf * 40)` as a whole number of points and `area_ratio > 0.03` as a
    flag. */
module Risk {
  import opened Wrappers

  /** `int(conf * 40)` for a confidence between 0 and 1. */
  type ConfPoints = x: int | 0 <= x <= 40

  /** One detected box: its class name, its confidence points, and whether it
      covers more than 3% of the frame. */
  datatype Box = Box(cls: string, confPoints: ConfPoints, large: bool)

  /** The record appended to a class's history: `(frame_idx, conf, area_ratio)`. */
  datatype Sample = Sample(frame: int, confPoints: ConfPoints, large: bool)

  /** A box together with the length of its class's history after it was
      recorded (`continued`). */
  datatype Obj = Obj(cls: string, confPoints: ConfPoints, large: bool, continued: nat)

  datatype Level = LOW | MEDIUM | HIGH

  function Rank(l: Level): nat {
    match l
    case LOW => 0
    case MEDIUM => 1
    case HIGH => 2
  }

  /** `maxlen` of every history deque. */
  const TrackLength := 5

  /** `deque(maxlen=5).append(x)`: x joins at the right end and, when the
      deque is full, the oldest record leaves at the left. */
  function Pushed(q: seq<Sample>, x: Sample): (r: seq<Sample>)
    ensures |r| == if |q| < TrackLength then |q| + 1 else TrackLength
    ensures r[|r| - 1] == x
  {
    var all := q + [x];
    if |all| <= TrackLength then all else all[|all| - TrackLength..]
  }

  /** The deque is first-in first-out: what it keeps is the newest end of the
      old records followed by x, in arrival order. */
  lemma PushedKeepsNewest(q: seq<Sample>, x: Sample)
    ensures Pushed(q, x) == (q + [x])[|q| + 1 - |Pushed(q, x)|..]
    ensures |q| < TrackLength ==> Pushed(q, x) == q + [x]
    ensures |q| == TrackLength ==> Pushed(q, x) == q[1..] + [x]
  {
  }

  type Tracks = map<string, seq<Sample>>

  /** `memory[name]` of a `defaultdict`: an absent class has an empty history. */
  function Track(t: Tracks, cls: string): seq<Sample> {
    if cls in t then t[cls] else []
  }

  ghost predicate Bounded(t: Tracks) {
    forall c :: c in t ==> |t[c]| <= TrackLength
  }

  /** The first loop of `assess_risk` over `boxes`: the histories afterwards
      and the boxes annotated with their `continued` counts. */
  function Scan(t: Tracks, boxes: seq<Box>, frameIdx: int): (r: (Tracks, seq<Obj>))
    ensures |r.1| == |boxes|
    decreases |boxes|
  {
    if boxes == [] then (t, [])
    else
      var prev := Scan(t, boxes[..|boxes| - 1], frameIdx);
      var b := boxes[|boxes| - 1];
      var q := Pushed(Track(prev.0, b.cls), Sample(frameIdx, b.confPoints, b.large));
      (prev.0[b.cls := q], prev.1 + [Obj(b.cls, b.confPoints, b.large, |q|)])
  }

  /** Each box comes out annotated with its own class, confidence and size
      and a `continued` count between 1 and the deque length, and no
      history ever grows beyond that length. */
  lemma {:induction false} ScanAnnotates(t: Tracks, boxes: seq<Box>, frameIdx: int)
    ensures var r := Scan(t, boxes, frameIdx);
            forall i :: 0 <= i < |boxes| ==>
              && r.1[i].cls == boxes[i].cls && r.1[i].confPoints == boxes[i].confPoints
              && r.1[i].large == boxes[i].large && 1 <= r.1[i].continued <= TrackLength
    ensures Bounded(t) ==> Bounded(Scan(t, boxes, frameIdx).0)
    decreases |boxes|
  {
    if boxes != [] {
      var init := boxes[..|boxes| - 1];
      ScanAnnotates(t, init, frameIdx);
      var prev := Scan(t, init, frameIdx);
      var r := Scan(t, boxes, frameIdx);
      forall i | 0 <= i < |boxes| - 1
        ensures r.1[i] == prev.1[i] && boxes[i] == init[i]
      {
      }
    }
  }

  predicate IsWeapon(cls: string) {
    cls == "gun" || cls == "knife"
  }

  /** The weight of a detection's class. */
  function ClassPoints(cls: string): int {
    if cls == "gun" then 40 else if cls == "knife" then 25 else 0
  }

  /** What one detection adds to the score. */
  function Points(o: Obj): (p: int)
    ensures 0 <= p <= 100
    ensures o.cls == "gun" ==> p >= 40
    ensures o.cls == "knife" ==> p >= 25
  {
    ClassPoints(o.cls)
    + o.confPoints
    + (if o.continued >= 3 then 10 else 0)
    + (if o.large then 10 else 0)
  }

  function Score(objs: seq<Obj>): (s: int)
    ensures 0 <= s <= 100 * |objs|
    decreases |objs|
  {
    if objs == [] then 0 else Score(objs[..|objs| - 1]) + Points(objs[|objs| - 1])
  }

  /** `main_cls` after the second loop: set by the first gun or knife and
      kept from then on. */
  function MainClass(objs: seq<Obj>): (m: Option<string>)
    ensures m.Some? ==> IsWeapon(m.value)
    decreases |objs|
  {
    if objs == [] then None
    else
      var m := MainClass(objs[..|objs| - 1]);
      var o := objs[|objs| - 1];
      if m.Some? then m
      else if o.cls == "gun" then Some("gun")
      else if o.cls == "knife" then Some("knife")
      else None
  }

  /** The index of the first gun or knife, searched from the front. */
  function FirstWeapon(objs: seq<Obj>): (k: nat)
    ensures k <= |objs|
    ensures forall j :: 0 <= j < k ==> !IsWeapon(objs[j].cls)
    ensures k < |objs| ==> IsWeapon(objs[k].cls)
    decreases |objs|
  {
    if objs == [] then 0
    else if IsWeapon(objs[0].cls) then 0
    else 1 + FirstWeapon(objs[1..])
  }

  /** The main class is the class of the first weapon in detection order,
      and there is none exactly when no detection is a gun or a knife. */
  lemma {:induction false} MainClassIsFirstWeapon(objs: seq<Obj>)
    ensures var k := FirstWeapon(objs);
            MainClass(objs) == if k < |objs| then Some(objs[k].cls) else None
    decreases |objs|
  {
    if objs != [] {
      var init := objs[..|objs| - 1];
      MainClassIsFirstWeapon(init);
      var k := FirstWeapon(objs);
      if k < |objs| - 1 {
        assert FirstWeapon(init) == k by {
          FirstWeaponOfPrefix(objs, |objs| - 1);
        }
        assert init[k] == objs[k];
      }
    }
  }

  lemma {:induction false} FirstWeaponOfPrefix(objs: seq<Obj>, n: nat)
    requires FirstWeapon(objs) < n <= |objs|
    ensures FirstWeapon(objs[..n]) == FirstWeapon(objs)
    decreases n
  {
    if !IsWeapon(objs[0].cls) {
      assert objs[..n][1..] == objs[1..][..n - 1];
      FirstWeaponOfPrefix(objs[1..], n - 1);
    }
  }

  /** `score >= 70` is HIGH, `score >= 40` MEDIUM, anything lower LOW. */
  function LevelOf(score: int): (l: Level)
    ensures l == HIGH <==> score >= 70
    ensures l == MEDIUM <==> 40 <= score < 70
    ensures l == LOW <==> score < 40
  {
    if score >= 70 then HIGH else if score >= 40 then MEDIUM else LOW
  }

  lemma LevelMonotone(a: int, b: int)
    requires a <= b
    ensures Rank(LevelOf(a)) <= Rank(LevelOf(b))
  {
  }

  /** What `assess_risk` returns for the annotated boxes. */
  function Judge(objs: seq<Obj>): (r: (Level, string))
    ensures objs == [] ==> r == (LOW, "unknown")
    ensures r.1 == "unknown" || IsWeapon(r.1)
  {
    (LevelOf(Score(objs)), MainClass(objs).GetOr("unknown"))
  }

  /** The score is at least what any single detection contributes. */
  lemma {:induction false} ScoreCoversEach(objs: seq<Obj>, i: nat)
    requires i < |objs|
    ensures Score(objs) >= Points(objs[i])
    decreases |objs|
  {
    if i < |objs| - 1 {
      ScoreCoversEach(objs[..|objs| - 1], i);
    }
  }

  /** A detection never lowers the score: a prefix scores no more. */
  lemma {:induction false} ScorePrefixMonotone(objs: seq<Obj>, n: nat)
    requires n <= |objs|
    ensures Score(objs[..n]) <= Score(objs)
    decreases |objs| - n
  {
    if n < |objs| {
      ScorePrefixMonotone(objs, n + 1);
      assert objs[..n + 1][..n] == objs[..n];
      assert Score(objs[..n + 1]) == Score(objs[..n]) + Points(objs[n]);
    } else {
      assert objs[..n] == objs;
    }
  }

  /** A gun in the frame always rates at least MEDIUM. */
  lemma GunIsNeverLow(objs: seq<Obj>, i: nat)
    requires i < |objs| && objs[i].cls == "gun"
    ensures Judge(objs).0 != LOW
  {
    ScoreCoversEach(objs, i);
  }

  /** The per-class histories `assess_risk` appends to in place. */
  class TrackMemory {
    var tracks: Tracks

    constructor ()
      ensures tracks == map[]
    {
      tracks := map[];
    }

    /** `memory[name].append(record)` followed by `len(memory[name])`. */
    method Append(cls: string, record: Sample) returns (continued: nat)
      modifies this
      ensures tracks == old(tracks)[cls := Pushed(Track(old(tracks), cls), record)]
      ensures continued == |tracks[cls]| && 1 <= continued <= TrackLength
      ensures old(Bounded(tracks)) ==> Bounded(tracks)
    {
      var q := Pushed(Track(tracks, cls), record);
      tracks := tracks[cls := q];
      continued := |q|;
    }
  }

  /** `assess_risk` as a whole: the histories afterwards and the verdict. */
  function Assess(t: Tracks, boxes: seq<Box>, frameIdx: int): (r: (Tracks, (Level, string)))
    ensures boxes == [] ==> r == (t, (LOW, "unknown"))
    ensures r.1.1 == "unknown" || IsWeapon(r.1.1)
    ensures Bounded(t) ==> Bounded(r.0)
  {
    ScanAnnotates(t, boxes, frameIdx);
    var scan := Scan(t, boxes, frameIdx);
    (scan.0, Judge(scan.1))
  }

  lemma ScanStep(t: Tracks, boxes: seq<Box>, i: nat, frameIdx: int)
    requires i < |boxes|
    ensures var prev := Scan(t, boxes[..i], frameIdx);
            var b := boxes[i];
            var q := Pushed(Track(prev.0, b.cls), Sample(frameIdx, b.confPoints, b.large));
            Scan(t, boxes[..i + 1], frameIdx) == (prev.0[b.cls := q], prev.1 + [Obj(b.cls, b.confPoints, b.large, |q|)])
  {
    assert boxes[..i + 1][..i] == boxes[..i];
  }

  lemma TallyStep(objs: seq<Obj>, j: nat)
    requires j < |objs|
    ensures Score(objs[..j + 1]) == Score(objs[..j]) + Points(objs[j])
    ensures var m := MainClass(objs[..j]);
            MainClass(objs[..j + 1]) ==
              if m.Some? then m
              else if objs[j].cls == "gun" then Some("gun")
              else if objs[j].cls == "knife" then Some("knife")
              else None
  {
    assert objs[..j + 1][..j] == objs[..j];
  }

  /** The second loop of `assess_risk`: the summed points of the
      annotated boxes and the first weapon class among them. */
  method Tally(objs: seq<Obj>) returns (score: int, main: Option<string>)
    ensures score == Score(objs)
    ensures main == MainClass(objs)
  {
    score := 0;
    main := None;
    var j := 0;
    while j < |objs|
      invariant 0 <= j <= |objs|
      invariant score == Score(objs[..j])
      invariant main == MainClass(objs[..j])
    {
      var o := objs[j];
      TallyStep(objs, j);
      ghost var before := score;
      if o.cls == "gun" {
        score := score + 40;
        if main.None? { main := Some("gun"); }
      } else if o.cls == "knife" {
        score := score + 25;
        if main.None? { main := Some("knife"); }
      }
      assert score == before + ClassPoints(o.cls);
      score := score + o.confPoints;
      if o.continued >= 3 {
        score := score + 10;
      }
      if o.large {
        score := score + 10;
      }
      assert score == before + Points(o);
      j := j + 1;
    }
    assert objs[..|objs|] == objs;
  }

  /** `assess_risk(results, frame, model_names, memory, frame_idx)`. */
  method AssessRisk(memory: TrackMemory, boxes: seq<Box>, frameIdx: int) returns (level: Level, mainCls: string)
    modifies memory
    ensures (memory.tracks, (level, mainCls)) == Assess(old(memory.tracks), boxes, frameIdx)
  {
    ghost var t0 := memory.tracks;
    var objs: seq<Obj> := [];
    var i := 0;
    while i < |boxes|
      invariant 0 <= i <= |boxes|
      invariant memory.tracks == Scan(t0, boxes[..i], frameIdx).0
      invariant objs == Scan(t0, boxes[..i], frameIdx).1
    {
      var b := boxes[i];
      ScanStep(t0, boxes, i, frameIdx);
      var continued := memory.Append(b.cls, Sample(frameIdx, b.confPoints, b.large));
      objs := objs + [Obj(b.cls, b.confPoints, b.large, continued)];
      i := i + 1;
    }
    assert boxes[..|boxes|] == boxes;
    ghost var scan := Scan(t0, boxes, frameIdx);
    assert memory.tracks == scan.0 && objs == scan.1;

    var score, main := Tally(objs);

    if score >= 70 {
      level := HIGH;
    } else if score >= 40 {
      level := MEDIUM;
    } else {
      level := LOW;
    }
    mainCls := main.GetOr("unknown");
    assert (level, mainCls) == Judge(objs);
  }
}
