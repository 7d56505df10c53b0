/** The catalog loader of src/js/data.js: each record keeps its name line and the
    orbital-element fields picked out of its two TLE lines as unconverted tokens. */
module OrbitalData {
  import opened Wrappers
  import opened LineSplit
  import opened Whitespace
  import opened Triples

  /** The `orbital_elements` object; each field is a token of a TLE line, or None
      (`undefined`) when the line has too few tokens. */
  datatype OrbitalElements = OrbitalElements(
    epochYear: Option<string>,
    epochDay: Option<string>,
    inclination: Option<string>,
    rightAscension: Option<string>,
    eccentricity: Option<string>,
    argumentOfPerigee: Option<string>,
    meanAnomaly: Option<string>,
    meanMotion: Option<string>)

  /** A DataPoint(id, position, position_type); the loader always passes "orbital". */
  datatype DataPoint = DataPoint(id: string, position: OrbitalElements, positionType: string)

  /** The field mapping of one record: line-1 tokens 6 and 7, line-2 tokens 2 to 7. */
  function Elements(line1: string, line2: string): OrbitalElements
  {
    var t1 := Tokens(line1);
    var t2 := Tokens(line2);
    OrbitalElements(At(t1, 6), At(t1, 7), At(t2, 2), At(t2, 3), At(t2, 4), At(t2, 5), At(t2, 6), At(t2, 7))
  }

  /** A field read as token k of `line`: present exactly when the line has more than k
      tokens, and then a whitespace-free piece of the line. */
  ghost predicate FieldIsToken(f: Option<string>, line: string, k: nat)
  {
    (f.Some? <==> k < |Tokens(line)|) &&
    (f.Some? ==> f.value == Tokens(line)[k] && NoWhitespace(f.value) && IsSubstring(f.value, line))
  }

  /** Every field is the token the source indexes, unconverted; an absent token gives an
      absent field rather than an error. */
  lemma ElementsAreTokens(line1: string, line2: string)
    ensures var e := Elements(line1, line2);
      FieldIsToken(e.epochYear, line1, 6) && FieldIsToken(e.epochDay, line1, 7) &&
      FieldIsToken(e.inclination, line2, 2) && FieldIsToken(e.rightAscension, line2, 3) &&
      FieldIsToken(e.eccentricity, line2, 4) && FieldIsToken(e.argumentOfPerigee, line2, 5) &&
      FieldIsToken(e.meanAnomaly, line2, 6) && FieldIsToken(e.meanMotion, line2, 7)
  {
    TokensHaveNoWhitespace(line1);
    TokensHaveNoWhitespace(line2);
    TokensAreSubstrings(line1);
    TokensAreSubstrings(line2);
  }

  /** On lines whose words are separated by whitespace runs of any length, as real TLE lines
      are, the fields are the words at the code's indices; an empty first word stands for
      leading whitespace and is counted, as the split counts it. */
  lemma ElementsOfSeparatedLines(ts1: seq<string>, seps1: seq<string>, ts2: seq<string>, seps2: seq<string>)
    requires |ts1| >= 8 && |seps1| == |ts1| - 1 && |ts2| >= 8 && |seps2| == |ts2| - 1
    requires forall k :: 0 <= k < |ts1| ==> NoWhitespace(ts1[k])
    requires forall k :: 0 <= k < |ts2| ==> NoWhitespace(ts2[k])
    requires forall k :: 1 <= k < |ts1| - 1 ==> |ts1[k]| > 0
    requires forall k :: 1 <= k < |ts2| - 1 ==> |ts2[k]| > 0
    requires forall k :: 0 <= k < |seps1| ==> WhitespaceRun(seps1[k])
    requires forall k :: 0 <= k < |seps2| ==> WhitespaceRun(seps2[k])
    ensures Elements(JoinRuns(ts1, seps1), JoinRuns(ts2, seps2)) == OrbitalElements(
      Some(ts1[6]), Some(ts1[7]), Some(ts2[2]), Some(ts2[3]),
      Some(ts2[4]), Some(ts2[5]), Some(ts2[6]), Some(ts2[7]))
  {
    TokensJoinRuns(ts1, seps1);
    TokensJoinRuns(ts2, seps2);
  }

  /** The datapoint of pass i over a complete triple: named by line 3i, fields from
      lines 3i+1 and 3i+2. */
  function TripleRecord(lines: seq<string>, i: nat): DataPoint
    requires 3 * i + 2 < |lines|
  {
    DataPoint(lines[3 * i], Elements(lines[3 * i + 1], lines[3 * i + 2]), "orbital")
  }

  /** Pass i of the loop: read lines 3i, 3i+1 and 3i+2, throwing on a missing TLE line. */
  function TleRecord(lines: seq<string>, i: nat): Step<DataPoint>
  {
    if 3 * i + 1 >= |lines| then Fail(MissingLine(3 * i + 1))
    else if 3 * i + 2 >= |lines| then Fail(MissingLine(3 * i + 2))
    else Push(TripleRecord(lines, i))
  }

  function TleSteps(lines: seq<string>): nat -> Step<DataPoint>
  {
    (i: nat) => TleRecord(lines, i)
  }

  /** What processTLE appends to `datapoints`, and what it throws. */
  function Load(text: string): Progress<DataPoint>
  {
    var lines := SplitLines(text);
    Run(TleSteps(lines), IterationCount(|lines|))
  }

  /** The datapoints of the first k triples, in order. */
  function Records(lines: seq<string>, k: nat): seq<DataPoint>
    requires 3 * k <= |lines|
  {
    seq(k, j requires 0 <= j < k => TripleRecord(lines, j))
  }

  /** One more complete triple adds its datapoint at the end. */
  lemma RecordsGrow(lines: seq<string>, k: nat)
    requires 3 * k + 3 <= |lines|
    ensures Records(lines, k + 1) == Records(lines, k) + [TripleRecord(lines, k)]
  {
  }

  /** The loop over `lines` appends the datapoints of all complete triples, and throws
      exactly when a last triple has its name and first line but not its second. */
  lemma RunLines(lines: seq<string>)
    ensures Run(TleSteps(lines), IterationCount(|lines|)) == Progress(Records(lines, |lines| / 3), TripleFailure(|lines|))
  {
    TleStepsOverTriples(lines);
    RunOverTriples(TleSteps(lines), |lines|);
    CompleteTriples(lines);
  }

  /** Passes over complete triples append; a pass missing its second TLE line throws. */
  lemma TleStepsOverTriples(lines: seq<string>)
    ensures forall i: nat :: 3 * i + 2 < |lines| ==> TleSteps(lines)(i) == Push(TripleRecord(lines, i))
    ensures |lines| % 3 == 2 ==> TleSteps(lines)(|lines| / 3) == Fail(MissingLine(|lines|))
  {
  }

  /** The first |lines| / 3 passes append the datapoints of the complete triples. */
  lemma CompleteTriples(lines: seq<string>)
    ensures Run(TleSteps(lines), |lines| / 3).points == Records(lines, |lines| / 3)
  {
    var m := |lines| / 3;
    var step := TleSteps(lines);
    TleStepsOverTriples(lines);
    forall i | 0 <= i < m ensures step(i) == Push(TripleRecord(lines, i)) {
      assert 3 * i + 2 < |lines|;
    }
    RunPushesAll(step, m);
  }

  /** The load throws exactly when the split has 3n+2 lines, reading the missing line 3n+2;
      otherwise every line triple gives a record: record i is named by line 3i and holds
      the fields of lines 3i+1 and 3i+2, in text order. */
  lemma LoadRecords(text: string)
    ensures var lines, p := SplitLines(text), Load(text);
      && (p.failure.Some? <==> |lines| % 3 == 2)
      && (p.failure.Some? ==> p.failure == Some(MissingLine(|lines|)))
      && |p.points| == |lines| / 3
      && forall i :: 0 <= i < |p.points| ==>
           3 * i + 2 < |lines| &&
           p.points[i] == DataPoint(lines[3 * i], Elements(lines[3 * i + 1], lines[3 * i + 2]), "orbital")
  {
    RunLines(SplitLines(text));
  }

  /** A catalog of 3n newline-terminated lines gives n records and no error. */
  lemma TerminatedCatalog(lines: seq<string>)
    requires |lines| % 3 == 0
    requires forall k :: 0 <= k < |lines| ==> PlainLine(lines[k])
    ensures Load(Terminated(lines)).failure == None
    ensures |Load(Terminated(lines)).points| == |lines| / 3
    ensures forall i :: 0 <= i < |lines| / 3 ==> Load(Terminated(lines)).points[i].id == lines[3 * i]
  {
    var text := Terminated(lines);
    SplitTerminated(lines);
    var split := SplitLines(text);
    assert split == lines + [""];
    assert |split| % 3 == 1 && |split| / 3 == |lines| / 3;
    RunLines(split);
    forall i | 0 <= i < |lines| / 3 ensures Load(text).points[i].id == lines[3 * i] {
      assert split[3 * i] == lines[3 * i];
    }
  }

  /** The DataSet of src/js/data.js. */
  class DataSet {
    var kind: string
    var rawData: string
    var datapoints: seq<DataPoint>
    /** The error the constructor throws; when it is Some, the caller never gets the object. */
    var thrown: Option<LoadError>

    /** new DataSet(type, raw): only type "tle" loads; "blank" and every other type leave
        `datapoints` empty. */
    constructor (kind: string, raw: string)
      ensures this.kind == kind && rawData == raw
      ensures kind == "tle" ==> datapoints == Load(raw).points && thrown == Load(raw).failure
      ensures kind != "tle" ==> datapoints == [] && thrown == None
    {
      this.kind := kind;
      rawData := raw;
      datapoints := [];
      thrown := None;
      new;
      if kind == "blank" {
      } else if kind == "tle" {
        thrown := ProcessTLE();
      }
    }

    /** processTLE(): one datapoint per line triple, appended in text order. */
    method ProcessTLE() returns (failure: Option<LoadError>)
      modifies this`datapoints
      ensures datapoints == old(datapoints) + Load(rawData).points
      ensures failure == Load(rawData).failure
    {
      var splitData := SplitLines(rawData);
      failure := ReadTriples(splitData);
      RunLines(splitData);
    }

    /** The loop of processTLE: pass i reads lines 3i, 3i+1 and 3i+2 and appends their
        datapoint, or throws when line 3i+2 is missing. */
    method ReadTriples(splitData: seq<string>) returns (failure: Option<LoadError>)
      modifies this`datapoints
      ensures datapoints == old(datapoints) + Records(splitData, |splitData| / 3)
      ensures failure == TripleFailure(|splitData|)
    {
      var i: nat := 0;
      while 3 * i < |splitData| - 1
        invariant 3 * i <= |splitData|
        invariant datapoints == old(datapoints) + Records(splitData, i)
        decreases |splitData| - 3 * i
      {
        var entry := 3 * i;
        var line0 := splitData[entry];
        var line1 := splitData[entry + 1];
        if entry + 2 >= |splitData| {
          failure := Some(MissingLine(entry + 2));
          return;
        }
        var line2 := splitData[entry + 2];
        var point := DataPoint(line0, Elements(line1, line2), "orbital");
        RecordsGrow(splitData, i);
        datapoints := datapoints + [point];
        i := i + 1;
      }
      failure := None;
    }
  }
}
