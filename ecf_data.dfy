/** The catalog loader of src/data.js: each record is propagated to the load instant,
    converted to Earth-fixed coordinates, placed in the scene and coloured; records
    without a propagated position are dropped. */
module EcfData {
  import opened Wrappers
  import opened LineSplit
  import opened Triples
  import opened Three
  import opened Satellite

  /** The geometry shared by every mesh of a DataSet. */
  const SphereGeometry: Geometry := Sphere(0.01, 2, 2)

  /** The colour rule, first match: red near the prime-meridian plane (|z| < 0.05),
      else green near the equatorial plane (|y| < 0.05), else white. */
  function EcfColour(p: Vec3): Colour
  {
    if Abs(p.z) < 0.05 then Red
    else if Abs(p.y) < 0.05 then Green
    else White
  }

  /** Exactly one of red, green and white is chosen, each under its own condition,
      and blue never is. */
  lemma EcfColourRule(p: Vec3)
    ensures EcfColour(p) == Red <==> Abs(p.z) < 0.05
    ensures EcfColour(p) == Green <==> Abs(p.z) >= 0.05 && Abs(p.y) < 0.05
    ensures EcfColour(p) == White <==> Abs(p.z) >= 0.05 && Abs(p.y) >= 0.05
    ensures EcfColour(p) != Blue
  {
  }

  /** An ECFDataPoint(id, mesh). */
  datatype EcfDataPoint = EcfDataPoint(id: string, mesh: Mesh)

  /** The scene position of an Earth-centred inertial position at `now`: converted to
      Earth-fixed coordinates with the sidereal time of `now`, then swapped and scaled. */
  function ScenePosition(sat: Propagator, eci: Vec3, now: Instant, scale: real): Vec3
  {
    SwapScale(sat.eciToEcf(eci, sat.gstime(now)), scale)
  }

  /** The datapoint of a record whose position is defined: a sphere at its scene
      position, coloured by that position. */
  function EcfPoint(name: string, position: Vec3): EcfDataPoint
  {
    EcfDataPoint(name, Mesh(position, SphereGeometry, EcfColour(position)))
  }

  /** Pass i of the loop: a missing TLE line throws (satellite.js dereferences both lines),
      an undefined position appends nothing, a defined one appends its datapoint. */
  function EcfRecord(sat: Propagator, now: Instant, scale: real, lines: seq<string>, i: nat): Step<EcfDataPoint>
  {
    if 3 * i + 1 >= |lines| then Fail(MissingLine(3 * i + 1))
    else if 3 * i + 2 >= |lines| then Fail(MissingLine(3 * i + 2))
    else match sat.propagate(lines[3 * i + 1], lines[3 * i + 2], now)
      case None => Skip
      case Some(eci) => Push(EcfPoint(lines[3 * i], ScenePosition(sat, eci, now, scale)))
  }

  function EcfSteps(sat: Propagator, now: Instant, scale: real, lines: seq<string>): nat -> Step<EcfDataPoint>
  {
    (i: nat) => EcfRecord(sat, now, scale, lines, i)
  }

  /** What processTLEData appends to `datapoints`, and what it throws, for a load at `now`. */
  function Load(text: string, sat: Propagator, now: Instant, scale: real): Progress<EcfDataPoint>
  {
    var lines := SplitLines(text);
    Run(EcfSteps(sat, now, scale, lines), IterationCount(|lines|))
  }

  /** Triple i is complete and the propagator gives it a position at `now`. */
  predicate Defined(sat: Propagator, now: Instant, lines: seq<string>, i: nat)
  {
    3 * i + 2 < |lines| && sat.propagate(lines[3 * i + 1], lines[3 * i + 2], now).Some?
  }

  /** Passes over complete triples never throw; a pass missing its second TLE line does. */
  lemma EcfStepsOverTriples(sat: Propagator, now: Instant, scale: real, lines: seq<string>)
    ensures forall i: nat :: 3 * i + 2 < |lines| ==> !EcfSteps(sat, now, scale, lines)(i).Fail?
    ensures forall i: nat :: EcfSteps(sat, now, scale, lines)(i).Push? <==> Defined(sat, now, lines, i)
    ensures |lines| % 3 == 2 ==> EcfSteps(sat, now, scale, lines)(|lines| / 3) == Fail(MissingLine(|lines|))
  {
  }

  /** The datapoints of the first k triples that have a defined position, in order: the
      source's filter, written independently of the loop. */
  function Kept(sat: Propagator, now: Instant, scale: real, lines: seq<string>, k: nat): seq<EcfDataPoint>
    requires 3 * k <= |lines|
  {
    if k == 0 then []
    else
      var i := k - 1;
      Kept(sat, now, scale, lines, i) +
        (if Defined(sat, now, lines, i)
         then [EcfPoint(lines[3 * i], ScenePosition(sat, sat.propagate(lines[3 * i + 1], lines[3 * i + 2], now).value, now, scale))]
         else [])
  }

  /** The loop's first k passes over complete triples leave exactly the kept datapoints. */
  lemma {:induction false} RunIsKept(sat: Propagator, now: Instant, scale: real, lines: seq<string>, k: nat)
    requires 3 * k <= |lines|
    ensures Run(EcfSteps(sat, now, scale, lines), k) == Progress(Kept(sat, now, scale, lines, k), None)
    decreases k
  {
    if k > 0 {
      RunIsKept(sat, now, scale, lines, k - 1);
      RunOneMore(EcfSteps(sat, now, scale, lines), k - 1);
    }
  }

  /** The load throws exactly when the split has 3n+2 lines, on the missing line; the
      datapoints are those of the complete triples, with or without the throw. */
  lemma LoadFailure(text: string, sat: Propagator, now: Instant, scale: real)
    ensures var lines := SplitLines(text);
      Load(text, sat, now, scale) == Progress(Kept(sat, now, scale, lines, |lines| / 3), TripleFailure(|lines|))
  {
    RunLines(SplitLines(text), sat, now, scale);
  }

  lemma RunLines(lines: seq<string>, sat: Propagator, now: Instant, scale: real)
    ensures Run(EcfSteps(sat, now, scale, lines), IterationCount(|lines|)) ==
      Progress(Kept(sat, now, scale, lines, |lines| / 3), TripleFailure(|lines|))
  {
    EcfStepsOverTriples(sat, now, scale, lines);
    RunOverTriples(EcfSteps(sat, now, scale, lines), |lines|);
    RunIsKept(sat, now, scale, lines, |lines| / 3);
  }

  /** The datapoints are the records with a defined position, one each, in text order:
      survivor j comes from triple idx[j], is named by its name line and sits at the scene
      position of its propagated position, every conversion using the one instant `now`;
      so their number is the number of triples with a defined position. */
  lemma LoadSurvivors(text: string, sat: Propagator, now: Instant, scale: real)
    ensures var lines, p := SplitLines(text), Load(text, sat, now, scale).points;
      var idx := PushIndices(EcfSteps(sat, now, scale, lines), |lines| / 3);
      && |p| == |idx|
      && (forall j, j' :: 0 <= j < j' < |idx| ==> idx[j] < idx[j'])
      && (forall i: nat :: i < |lines| / 3 ==> (Defined(sat, now, lines, i) <==> i in idx))
      && forall j :: 0 <= j < |idx| ==>
           Defined(sat, now, lines, idx[j]) &&
           p[j] == EcfPoint(lines[3 * idx[j]],
             ScenePosition(sat, sat.propagate(lines[3 * idx[j] + 1], lines[3 * idx[j] + 2], now).value, now, scale))
  {
    var lines := SplitLines(text);
    var step := EcfSteps(sat, now, scale, lines);
    var m := |lines| / 3;
    RunLines(lines, sat, now, scale);
    RunIsKept(sat, now, scale, lines, m);
    EcfStepsOverTriples(sat, now, scale, lines);
    forall i | 0 <= i < m ensures !step(i).Fail? {
      assert 3 * i + 2 < |lines|;
    }
    RunKeepsPushes(step, m);
  }

  /** The meshes of `points`, in order. */
  function Meshes(points: seq<EcfDataPoint>): seq<Mesh>
  {
    seq(|points|, j requires 0 <= j < |points| => points[j].mesh)
  }

  /** The DataSet of src/data.js. */
  class DataSet {
    var kind: string
    var rawData: string
    var scaleFactor: real
    var scene: Scene
    var datapoints: seq<EcfDataPoint>
    /** The error the constructor throws; when it is Some, the caller never gets the object. */
    var thrown: Option<LoadError>

    /** new DataSet(type, raw, scale_factor, scene, ...), loading at instant `now`: type
        "satellite-tle" loads and then adds every mesh to the scene; every other type
        loads nothing and leaves the scene alone. */
    constructor (kind: string, raw: string, scaleFactor: real, scene: Scene, sat: Propagator, now: Instant)
      modifies scene
      ensures this.kind == kind && rawData == raw && this.scaleFactor == scaleFactor && this.scene == scene
      ensures kind == "satellite-tle" ==>
        datapoints == Load(raw, sat, now, scaleFactor).points && thrown == Load(raw, sat, now, scaleFactor).failure &&
        scene.children == old(scene.children) + (if thrown.None? then Meshes(datapoints) else [])
      ensures kind != "satellite-tle" ==> datapoints == [] && thrown == None && scene.children == old(scene.children)
    {
      this.kind := kind;
      rawData := raw;
      this.scaleFactor := scaleFactor;
      this.scene := scene;
      datapoints := [];
      thrown := None;
      new;
      if kind == "satellite-tle" {
        thrown := ProcessTLEData(sat, now);
        if thrown.None? {
          RenderECFDataPoints();
        }
      }
    }

    /** processTLEData(), with the clock read as `now`. */
    method ProcessTLEData(sat: Propagator, now: Instant) returns (failure: Option<LoadError>)
      modifies this`datapoints
      ensures datapoints == old(datapoints) + Load(rawData, sat, now, scaleFactor).points
      ensures failure == Load(rawData, sat, now, scaleFactor).failure
    {
      var splitData := SplitLines(rawData);
      var gmst := sat.gstime(now);
      failure := ReadTriples(splitData, sat, now, gmst, scaleFactor);
      RunLines(splitData, sat, now, scaleFactor);
    }

    /** The loop of processTLEData: pass i propagates lines 3i+1 and 3i+2 to `now` and,
        when a position comes back, appends a coloured datapoint named by line 3i. */
    method ReadTriples(splitData: seq<string>, sat: Propagator, now: Instant, gmst: real, scale: real) returns (failure: Option<LoadError>)
      requires gmst == sat.gstime(now)
      modifies this`datapoints
      ensures datapoints == old(datapoints) + Kept(sat, now, scale, splitData, |splitData| / 3)
      ensures failure == TripleFailure(|splitData|)
    {
      var i: nat := 0;
      while 3 * i < |splitData| - 1
        invariant 3 * i <= |splitData|
        invariant datapoints == old(datapoints) + Kept(sat, now, scale, splitData, i)
        decreases |splitData| - 3 * i
      {
        var entry := 3 * i;
        if entry + 2 >= |splitData| {
          failure := Some(MissingLine(entry + 2));
          return;
        }
        var posvel := sat.propagate(splitData[entry + 1], splitData[entry + 2], now);
        if posvel.Some? {
          var posEcf := sat.eciToEcf(posvel.value, gmst);
          var posThree := Vec3(posEcf.x, posEcf.z, posEcf.y);
          posThree := Vec3(posThree.x * scale, posThree.y * scale, posThree.z * scale);
          var datapoint := EcfDataPoint(splitData[entry], Mesh(posThree, SphereGeometry, EcfColour(posThree)));
          assert datapoint == EcfPoint(splitData[entry], ScenePosition(sat, posvel.value, now, scale));
          datapoints := datapoints + [datapoint];
        }
        i := i + 1;
      }
      failure := None;
    }

    /** renderECFDataPoints(): every datapoint's mesh is added to the scene once, in
        `datapoints` order. */
    method RenderECFDataPoints()
      modifies scene
      ensures scene.children == old(scene.children) + Meshes(datapoints)
    {
      var k := 0;
      while k < |datapoints|
        invariant k <= |datapoints|
        invariant scene.children == old(scene.children) + Meshes(datapoints[..k])
      {
        assert Meshes(datapoints[..k + 1]) == Meshes(datapoints[..k]) + [datapoints[k].mesh];
        scene.Add(datapoints[k].mesh);
        k := k + 1;
      }
      assert datapoints[..k] == datapoints;
    }
  }
}
