/** The catalog loader of src/components/visualiser/data.js: every record is propagated
    to the load instant and kept in Earth-centred inertial coordinates, with a colour and
    a marker size picked by a four-way rule; an undefined position is dereferenced and throws. */
module EciData {
  import opened Wrappers
  import opened LineSplit
  import opened Triples
  import opened Three
  import opened Satellite

  /** The two geometries of a DataSet: the small marker and the big one. */
  const SmallSphere: Geometry := Sphere(0.03, 2, 2)
  const BigSphere: Geometry := Sphere(0.1, 3, 3)

  /** The colour and geometry of a point's marker. */
  datatype Marker = Marker(colour: Colour, geometry: Geometry)

  /** The four-way rule, first match: red when |x| < 0.05, else blue when |y| < 0.05,
      else green when |z| < 0.05, each with the big marker; otherwise white and small. */
  function Classify(pos: Vec3): Marker
  {
    if Abs(pos.x) < 0.05 then Marker(Red, BigSphere)
    else if Abs(pos.y) < 0.05 then Marker(Blue, BigSphere)
    else if Abs(pos.z) < 0.05 then Marker(Green, BigSphere)
    else Marker(White, SmallSphere)
  }

  /** Exactly one branch fires, each under its own condition, and the big marker is used
      if and only if the colour is not white. */
  lemma ClassifyRule(pos: Vec3)
    ensures var m := Classify(pos);
      && (m.colour == Red <==> Abs(pos.x) < 0.05)
      && (m.colour == Blue <==> Abs(pos.x) >= 0.05 && Abs(pos.y) < 0.05)
      && (m.colour == Green <==> Abs(pos.x) >= 0.05 && Abs(pos.y) >= 0.05 && Abs(pos.z) < 0.05)
      && (m.colour == White <==> Abs(pos.x) >= 0.05 && Abs(pos.y) >= 0.05 && Abs(pos.z) >= 0.05)
      && (m.geometry == BigSphere <==> m.colour != White)
      && (m.geometry == SmallSphere <==> m.colour == White)
  {
  }

  /** An ECIDataPoint(id, position, geometry, color). */
  datatype EciDataPoint = EciDataPoint(id: string, position: Vec3, geometry: Geometry, colour: Colour)
  {
    /** createPoint(): the sphere mesh at the point's position. */
    function SphereMesh(): Mesh
    {
      Mesh(position, geometry, colour)
    }
  }

  /** The datapoint of a record at scene position `pos`, marked by the four-way rule. */
  function EciPoint(name: string, pos: Vec3): EciDataPoint
  {
    var m := Classify(pos);
    EciDataPoint(name, pos, m.geometry, m.colour)
  }

  /** Triple i is complete and the propagator gives it a position at `now`. */
  predicate Defined(sat: Propagator, now: Instant, lines: seq<string>, i: nat)
  {
    3 * i + 2 < |lines| && sat.propagate(lines[3 * i + 1], lines[3 * i + 2], now).Some?
  }

  /** Pass i of the loop: a missing TLE line throws, and so does an undefined position
      (its coordinates are read unguarded); a defined one appends its datapoint. */
  function EciRecord(sat: Propagator, now: Instant, scale: real, lines: seq<string>, i: nat): Step<EciDataPoint>
  {
    if 3 * i + 1 >= |lines| then Fail(MissingLine(3 * i + 1))
    else if 3 * i + 2 >= |lines| then Fail(MissingLine(3 * i + 2))
    else match sat.propagate(lines[3 * i + 1], lines[3 * i + 2], now)
      case None => Fail(UndefinedPosition(i))
      case Some(p) => Push(EciPoint(lines[3 * i], SwapScale(p, scale)))
  }

  function EciSteps(sat: Propagator, now: Instant, scale: real, lines: seq<string>): nat -> Step<EciDataPoint>
  {
    (i: nat) => EciRecord(sat, now, scale, lines, i)
  }

  /** What processTLE appends to `datapoints`, and what it throws, for a load at `now`. */
  function Load(text: string, sat: Propagator, now: Instant, scale: real): Progress<EciDataPoint>
  {
    var lines := SplitLines(text);
    Run(EciSteps(sat, now, scale, lines), IterationCount(|lines|))
  }

  /** The first triple from i on that is incomplete or has no position. */
  function FirstStop(sat: Propagator, now: Instant, lines: seq<string>, i: nat): (s: nat)
    ensures i <= s
    ensures forall j :: i <= j < s ==> Defined(sat, now, lines, j)
    ensures !Defined(sat, now, lines, s)
    decreases |lines| - 3 * i
  {
    if !Defined(sat, now, lines, i) then i else FirstStop(sat, now, lines, i + 1)
  }

  /** The first stop is the only triple that stops and has no stop before it. */
  lemma FirstStopAt(sat: Propagator, now: Instant, lines: seq<string>, i: nat)
    requires forall j :: 0 <= j < i ==> Defined(sat, now, lines, j)
    requires !Defined(sat, now, lines, i)
    ensures FirstStop(sat, now, lines, 0) == i
  {
  }

  /** The datapoint of triple i, when it has a position. */
  function PlacedPoint(sat: Propagator, now: Instant, scale: real, lines: seq<string>, i: nat): EciDataPoint
    requires Defined(sat, now, lines, i)
  {
    EciPoint(lines[3 * i], SwapScale(sat.propagate(lines[3 * i + 1], lines[3 * i + 2], now).value, scale))
  }

  /** The datapoints of the first k triples, all with a defined position, in order. */
  function Placed(sat: Propagator, now: Instant, scale: real, lines: seq<string>, k: nat): (r: seq<EciDataPoint>)
    requires forall j :: 0 <= j < k ==> Defined(sat, now, lines, j)
    ensures |r| == k
    ensures forall j :: 0 <= j < k ==> r[j] == PlacedPoint(sat, now, scale, lines, j)
  {
    if k == 0 then [] else Placed(sat, now, scale, lines, k - 1) + [PlacedPoint(sat, now, scale, lines, k - 1)]
  }

  /** The error of a load that stops at triple s: the missing line of an incomplete last
      triple, none when s is past the last triple, or the undefined position of triple s. */
  function StopFailure(lineCount: nat, s: nat): Option<LoadError>
  {
    if 3 * s + 2 >= lineCount then TripleFailure(lineCount) else Some(UndefinedPosition(s))
  }

  /** The loop over `lines` appends one datapoint per triple up to the first stop, and
      throws there unless the stop is past the last triple. */
  lemma RunLines(sat: Propagator, now: Instant, scale: real, lines: seq<string>)
    ensures var s := FirstStop(sat, now, lines, 0);
      Run(EciSteps(sat, now, scale, lines), IterationCount(|lines|)) ==
        Progress(Placed(sat, now, scale, lines, s), StopFailure(|lines|, s))
  {
    RunStopsAt(sat, now, scale, lines, FirstStop(sat, now, lines, 0));
  }

  /** The loop with triple s as its first stop. */
  lemma RunStopsAt(sat: Propagator, now: Instant, scale: real, lines: seq<string>, s: nat)
    requires forall j :: 0 <= j < s ==> Defined(sat, now, lines, j)
    requires !Defined(sat, now, lines, s)
    ensures Run(EciSteps(sat, now, scale, lines), IterationCount(|lines|)) ==
      Progress(Placed(sat, now, scale, lines, s), StopFailure(|lines|, s))
  {
    var L, n := |lines|, IterationCount(|lines|);
    var step := EciSteps(sat, now, scale, lines);
    RunBeforeStop(sat, now, scale, lines, s);
    StopBound(sat, now, lines, s);
    if 3 * s + 2 < L {
      assert step(s) == Fail(UndefinedPosition(s));
      RunThrowsAt(step, s, n);
    } else if L % 3 == 2 {
      assert step(s) == Fail(MissingLine(L));
      RunThrowsAt(step, s, n);
    }
  }

  /** A first stop lies within the passes of the loop: an undefined position comes before
      the last pass, a missing line is the last pass, and otherwise the stop is just past it. */
  lemma StopBound(sat: Propagator, now: Instant, lines: seq<string>, s: nat)
    requires forall j :: 0 <= j < s ==> Defined(sat, now, lines, j)
    ensures 3 * s <= |lines|
    ensures 3 * s + 2 < |lines| ==> s < IterationCount(|lines|)
    ensures 3 * s + 2 >= |lines| && |lines| % 3 == 2 ==> s == IterationCount(|lines|) - 1
    ensures 3 * s + 2 >= |lines| && |lines| % 3 != 2 ==> s == IterationCount(|lines|)
  {
    if s > 0 {
      assert Defined(sat, now, lines, s - 1);
    }
  }

  /** While every triple has a position, each pass appends its datapoint. */
  lemma RunBeforeStop(sat: Propagator, now: Instant, scale: real, lines: seq<string>, k: nat)
    requires forall j :: 0 <= j < k ==> Defined(sat, now, lines, j)
    ensures Run(EciSteps(sat, now, scale, lines), k) == Progress(Placed(sat, now, scale, lines, k), None)
  {
    var step := EciSteps(sat, now, scale, lines);
    forall j | 0 <= j < k
      ensures step(j) == Push(PlacedPoint(sat, now, scale, lines, j))
    {
      assert Defined(sat, now, lines, j);
    }
    RunPushesAll(step, k);
  }

  /** The load throws nothing exactly when the split does not have 3n+2 lines and every
      triple has a position; it then appends one datapoint per pass, datapoint i named by
      line 3i and placed at the scaled, axis-swapped position of triple i. */
  lemma LoadComplete(text: string, sat: Propagator, now: Instant, scale: real)
    ensures var lines, p := SplitLines(text), Load(text, sat, now, scale);
      (p.failure.None? <==>
        |lines| % 3 != 2 && forall i :: 0 <= i < IterationCount(|lines|) ==> Defined(sat, now, lines, i))
    ensures var lines, p := SplitLines(text), Load(text, sat, now, scale);
      p.failure.None? ==>
        |p.points| == IterationCount(|lines|) &&
        forall i :: 0 <= i < |p.points| ==>
          p.points[i] == PlacedPoint(sat, now, scale, lines, i)
  {
    CompleteLines(sat, now, scale, SplitLines(text));
  }

  lemma CompleteLines(sat: Propagator, now: Instant, scale: real, lines: seq<string>)
    ensures var p := Run(EciSteps(sat, now, scale, lines), IterationCount(|lines|));
      (p.failure.None? <==>
        |lines| % 3 != 2 && forall i :: 0 <= i < IterationCount(|lines|) ==> Defined(sat, now, lines, i))
    ensures var p := Run(EciSteps(sat, now, scale, lines), IterationCount(|lines|));
      p.failure.None? ==> p.points == Placed(sat, now, scale, lines, IterationCount(|lines|))
  {
    var n := IterationCount(|lines|);
    var s := FirstStop(sat, now, lines, 0);
    RunLines(sat, now, scale, lines);
    StopBound(sat, now, lines, s);
    if s < n {
      assert !Defined(sat, now, lines, s);
    }
  }

  /** A load that throws stops at the first incomplete or undefined triple, after the
      datapoints of all the triples before it. */
  lemma LoadStopsAtFirst(text: string, sat: Propagator, now: Instant, scale: real, i: nat)
    requires forall j :: 0 <= j < i ==> Defined(sat, now, SplitLines(text), j)
    requires 3 * i + 2 < |SplitLines(text)| && !Defined(sat, now, SplitLines(text), i)
    ensures Load(text, sat, now, scale) ==
      Progress(Placed(sat, now, scale, SplitLines(text), i), Some(UndefinedPosition(i)))
  {
    var lines := SplitLines(text);
    FirstStopAt(sat, now, lines, i);
    RunLines(sat, now, scale, lines);
  }

  /** The sphere meshes of `points`, in order. */
  function Spheres(points: seq<EciDataPoint>): seq<Mesh>
  {
    seq(|points|, j requires 0 <= j < |points| => points[j].SphereMesh())
  }

  /** The DataSet of src/components/visualiser/data.js. */
  class DataSet {
    var kind: string
    var rawData: string
    var scaleFactor: real
    var datapoints: seq<EciDataPoint>
    /** The error the constructor throws; when it is Some, the caller never gets the object. */
    var thrown: Option<LoadError>

    /** new DataSet(type, raw, scale_factor), loading at instant `now`: only type
        "satellite-tle" loads; "blank" and every other type leave `datapoints` empty. */
    constructor (kind: string, raw: string, scaleFactor: real, sat: Propagator, now: Instant)
      ensures this.kind == kind && rawData == raw && this.scaleFactor == scaleFactor
      ensures kind == "satellite-tle" ==>
        datapoints == Load(raw, sat, now, scaleFactor).points && thrown == Load(raw, sat, now, scaleFactor).failure
      ensures kind != "satellite-tle" ==> datapoints == [] && thrown == None
    {
      this.kind := kind;
      rawData := raw;
      this.scaleFactor := scaleFactor;
      datapoints := [];
      thrown := None;
      new;
      if kind == "blank" {
      } else if kind == "satellite-tle" {
        thrown := ProcessTLE(sat, now);
      }
    }

    /** processTLE(), with the clock read as `now`. */
    method ProcessTLE(sat: Propagator, now: Instant) returns (failure: Option<LoadError>)
      modifies this`datapoints
      ensures datapoints == old(datapoints) + Load(rawData, sat, now, scaleFactor).points
      ensures failure == Load(rawData, sat, now, scaleFactor).failure
    {
      var splitData := SplitLines(rawData);
      failure := ReadTriples(splitData, sat, now, scaleFactor);
      RunLines(sat, now, scaleFactor, splitData);
    }

    /** The loop of processTLE: pass i propagates lines 3i+1 and 3i+2 to `now` and appends
        a datapoint named by line 3i, throwing when the position is undefined. */
    method ReadTriples(splitData: seq<string>, sat: Propagator, now: Instant, scale: real) returns (failure: Option<LoadError>)
      modifies this`datapoints
      ensures var s := FirstStop(sat, now, splitData, 0);
        datapoints == old(datapoints) + Placed(sat, now, scale, splitData, s) &&
        failure == StopFailure(|splitData|, s)
    {
      var i: nat := 0;
      while 3 * i < |splitData| - 1
        invariant 3 * i <= |splitData|
        invariant forall j :: 0 <= j < i ==> Defined(sat, now, splitData, j)
        invariant datapoints == old(datapoints) + Placed(sat, now, scale, splitData, i)
        decreases |splitData| - 3 * i
      {
        var entry := 3 * i;
        if entry + 2 >= |splitData| {
          failure := Some(MissingLine(entry + 2));
          FirstStopAt(sat, now, splitData, i);
          return;
        }
        var posvel := sat.propagate(splitData[entry + 1], splitData[entry + 2], now);
        if posvel.None? {
          failure := Some(UndefinedPosition(i));
          FirstStopAt(sat, now, splitData, i);
          return;
        }
        var p := posvel.value;
        var pos := SwapScale(p, scale);
        var marker := Classify(pos);
        var datapoint := EciDataPoint(splitData[entry], pos, marker.geometry, marker.colour);
        assert Defined(sat, now, splitData, i);
        assert datapoint == PlacedPoint(sat, now, scale, splitData, i);
        assert Placed(sat, now, scale, splitData, i + 1) == Placed(sat, now, scale, splitData, i) + [datapoint];
        datapoints := datapoints + [datapoint];
        i := i + 1;
      }
      FirstStopAt(sat, now, splitData, i);
      failure := None;
    }

    /** renderDataPoints(scene): every datapoint's sphere is added to the scene once, in
        `datapoints` order. */
    method RenderDataPoints(scene: Scene)
      modifies scene
      ensures scene.children == old(scene.children) + Spheres(datapoints)
    {
      var k := 0;
      while k < |datapoints|
        invariant k <= |datapoints|
        invariant scene.children == old(scene.children) + Spheres(datapoints[..k])
      {
        assert Spheres(datapoints[..k + 1]) == Spheres(datapoints[..k]) + [datapoints[k].SphereMesh()];
        scene.Add(datapoints[k].SphereMesh());
        k := k + 1;
      }
      assert datapoints[..k] == datapoints;
    }
  }
}
