# eovisualiser TLE catalog loaders in Dafny

eovisualiser draws Earth-orbiting satellites with Three.js. It reads them from a
two-line element (TLE) catalog: plain text where each record takes three lines, a name
line followed by TLE line 1 and TLE line 2. The repository holds three versions of the
`DataSet` class that loads such a catalog. This project models the loader of each one:

- `src/js/data.js` (module `OrbitalData`): splits each TLE line on whitespace runs and
  keeps eight orbital-element fields as unconverted tokens.
- `src/data.js` (module `EcfData`): asks satellite.js for each record's position at the
  load instant. It converts the position to Earth-fixed coordinates, swaps y and z,
  scales it, and colours it by a first-match rule. Records without a position are
  dropped. The meshes are then added to the scene in order.
- `src/components/visualiser/data.js` (module `EciData`): propagates each record, swaps
  and scales the inertial position, and picks a colour and a marker size with a four-way
  first-match rule. An undefined position is dereferenced, so it throws.

Shared modules:

- `LineSplit` models `split(/\r?\n/)`.
- `Whitespace` models `split(/\s+/)` with JavaScript's `\s` code points.
- `Wrappers` has `Option` and `At`, which is JavaScript's out-of-range array read giving
  `undefined`.
- `Triples` describes the loop `for (i = 0; i < (L-1)/3; i++)` that all three loaders
  share. `Run` gives the state after k passes for a per-pass step that either appends a
  datapoint, appends nothing, or throws.
- `Three` holds vectors, sphere geometries, colours, meshes and a scene.
- `Satellite` holds the satellite.js calls as uninterpreted function values.

Each `DataSet` is a class whose `datapoints` sequence grows in a loop. The constructor's
type switch is modelled. A `TypeError` thrown from inside the constructor is recorded in
the field `thrown`, and the datapoints appended before it are kept. In the source the
caller never receives the object in that case. Each `processTLE` method splits the raw
text and passes the lines to a `ReadTriples` method. That method is the source's `for`
loop, proved against a closed-form specification (`Records`, `Kept`, `Placed`). Lemmas
named `RunLines` link each closed form to `Load`, the loop semantics built on
`Triples.Run`.

Points about the code that the model keeps as written:

- The guard `i < (L-1)/3` divides as a floating-point number, so the loop runs
  `ceil((L-1)/3)` times (`Triples.LoopGuard`). A split of `3n+1` lines (a catalog with
  one trailing newline) gives `n` records, and so does a split of `3n` lines. A split of
  `3n+2` lines reads the missing line `3n+2` in its last pass and throws a `TypeError`.
  The records of the earlier passes have been appended by then.
- In `src/js/data.js`, "epoch year" and "epoch day" are tokens 6 and 7 of line 1. In the
  standard TLE layout those tokens are other fields; the model keeps the code's indices.
- In `src/components/visualiser/data.js`, an undefined position stops the whole load
  instead of dropping the record.

Inputs the source reads from the environment are parameters: the clock (`new Date()`)
is `now: Instant`, and the satellite.js functions are the fields of a `Propagator`.

## Model

| member | source | states |
|---|---|---|
| `LineSplit.SplitLines` | src/js/data.js:21 | splitting any text, even "", gives at least one line |
| `LineSplit.LineCount` | src/js/data.js:21 | the split has exactly one more line than the text has '\n' characters |
| `LineSplit.LinesHaveNoLf` | src/js/data.js:21 | no split line contains '\n' |
| `LineSplit.JoinSplitLines` | src/js/data.js:21 | joining the lines with "\n" gives the text with every "\r\n" turned into "\n", so nothing but the separators is lost |
| `LineSplit.SplitJoinLines` | src/js/data.js:21 | lines without '\n' and without a trailing '\r', joined with "\n", split back into the same lines |
| `LineSplit.SplitTerminated` | src/js/data.js:21 | newline-terminated text of n such lines splits into those n lines plus one empty line |
| `Whitespace.TokensHaveNoWhitespace` | src/js/data.js:26-27 | no token contains a whitespace character |
| `Whitespace.TokensAreSubstrings` | src/js/data.js:26-27 | every token is a contiguous piece of the line it came from |
| `Whitespace.TokensOfRun` | src/js/data.js:26-27 | a whitespace-free token followed by a whitespace run of any length splits off as the first token, so several spaces separate tokens just as one does |
| `Whitespace.TokensJoinRuns` | src/js/data.js:26-27 | whitespace-free words joined by non-empty whitespace runs of any length tokenise back into those words; only the first and last word may be empty, standing for leading and trailing whitespace |
| `Whitespace.TokensRebuild` | src/js/data.js:26-27 | every line is its tokens with its whitespace runs between them, so splitting loses only the runs |
| `Whitespace.InnerTokensNonEmpty` | src/js/data.js:26-27 | only the first and the last token can be empty: no run, however long, gives an empty token between two others |
| `Whitespace.DoubleSpace` | src/js/data.js:26-27 | "a  b" has exactly the tokens "a" and "b" |
| `Triples.LoopGuard` | src/js/data.js:23 | the real-valued guard i < (L-1)/3 holds exactly when 3i < L-1, that is, for the first (L+1)/3 values of i |
| `Triples.IterationCountIsCeiling` | src/js/data.js:23 | the number of passes is the ceiling of (L-1)/3 |
| `Triples.TripleLines` | src/js/data.js:24-27 | every pass reads an existing line 3i+1; line 3i+2 is missing exactly in the last pass, and only when L mod 3 = 2 |
| `Triples.Run` | src/js/data.js:23-44 | k passes append at most k datapoints |
| `Triples.RunStaysFailed` | src/js/data.js:23-44 | once a pass has thrown, later passes change nothing |
| `Triples.RunSucceeds` | src/js/data.js:23-44 | a run ends without error exactly when none of its passes throws |
| `Triples.RunFailsAtFirst` | src/js/data.js:23-44 | the error is the first throwing pass's error, and the datapoints are those of the passes before it |
| `Triples.RunKeepsPushes` | src/data.js:45-66 | without a throw, the datapoints are those of the appending passes, one each, in pass order |
| `Triples.RunPushesAll` | src/components/visualiser/data.js:40-59 | when every pass appends, datapoint i comes from pass i and there is no error |
| `Triples.RunOverTriples` | src/js/data.js:23-27 | a loop that throws only on the missing line of an incomplete last triple ends with the datapoints of the complete triples, and throws exactly when L mod 3 = 2 |
| `Three.SwapScaleInverse` | src/data.js:53-54 | for a non-zero scale, swapping back and dividing recovers the original vector, so the swap-and-scale loses nothing |
| `Three.Scene.Add` | src/data.js:74 | an added mesh becomes the scene's last child, and the others stay as they were |
| `OrbitalData.ElementsAreTokens` | src/js/data.js:30-39 | each field is line-1 token 6 or 7, or line-2 token 2 to 7: present exactly when the line has that many tokens, and then an unconverted, whitespace-free substring of the line |
| `OrbitalData.ElementsOfSeparatedLines` | src/js/data.js:26-39 | on lines of at least eight words separated by whitespace runs of any length, as real TLE lines are, the eight fields are exactly the words at the code's indices |
| `OrbitalData.TleStepsOverTriples` | src/js/data.js:24-27 | a pass over a complete triple appends its record; when L mod 3 = 2, the last pass throws on line L |
| `OrbitalData.RunLines` | src/js/data.js:23-44 | the loop appends the records of the L/3 complete triples in order, and throws, on its missing line, exactly when L mod 3 = 2 |
| `OrbitalData.LoadRecords` | src/js/data.js:21-44 | the load throws exactly when the split has 3n+2 lines; there are L/3 records, and record i is named by line 3i verbatim and holds the fields of lines 3i+1 and 3i+2, in text order |
| `OrbitalData.TerminatedCatalog` | src/js/data.js:21-23 | a catalog of 3n newline-terminated lines gives n records, named by its name lines, and no error |
| `OrbitalData.DataSet.constructor` | src/js/data.js:4-18 | type "tle" loads the raw text; "blank" and every other type leave `datapoints` empty and throw nothing |
| `OrbitalData.DataSet.ProcessTLE` | src/js/data.js:20-45 | `datapoints` grows by exactly the load's records, and the error thrown is the load's |
| `OrbitalData.DataSet.ReadTriples` | src/js/data.js:23-44 | the loop appends the records of the complete triples in order, and throws on line L exactly when L mod 3 = 2 |
| `EcfData.EcfColourRule` | src/data.js:59-61 | first match: red exactly when abs(z) < 0.05, green exactly when not red and abs(y) < 0.05, otherwise white; never blue |
| `EcfData.EcfStepsOverTriples` | src/data.js:45-50 | passes over complete triples never throw, a pass appends exactly when its triple has a position, and when L mod 3 = 2 the last pass throws on line L |
| `EcfData.RunIsKept` | src/data.js:45-66 | the first k passes over complete triples throw nothing and leave exactly the kept records, those with a defined position, in order |
| `EcfData.RunLines` | src/data.js:45-66 | the whole loop leaves the kept records of all complete triples, and throws exactly when L mod 3 = 2 |
| `EcfData.LoadFailure` | src/data.js:40-67 | the load's datapoints are the kept records of the complete triples, and its error is the missing line when the split has 3n+2 lines, none otherwise |
| `EcfData.LoadSurvivors` | src/data.js:40-67 | datapoint j comes from triple idx[j], and the idx are increasing; a complete triple survives exactly when its position at the shared instant is defined; its id is its name line and its position is scale·(ecf.x, ecf.z, ecf.y) of that position, converted with the sidereal time of the same instant |
| `EcfData.DataSet.constructor` | src/data.js:11-35 | type "satellite-tle" loads and then adds every datapoint's mesh to the scene, in order, unless the load threw; every other type loads nothing and leaves the scene unchanged |
| `EcfData.DataSet.ProcessTLEData` | src/data.js:40-67 | `datapoints` grows by exactly the load's datapoints at the one instant `now`, and the error thrown is the load's |
| `EcfData.DataSet.ReadTriples` | src/data.js:45-66 | given the sidereal time of `now`, the loop appends the kept records of the complete triples in order, and throws on line L exactly when L mod 3 = 2 |
| `EcfData.DataSet.RenderECFDataPoints` | src/data.js:72-77 | the scene gains each datapoint's mesh exactly once, in `datapoints` order, after its earlier children |
| `EciData.ClassifyRule` | src/components/visualiser/data.js:47-58 | first match: red exactly when abs(x) < 0.05, blue exactly when not red and abs(y) < 0.05, green exactly when neither and abs(z) < 0.05, else white; the big sphere exactly when the colour is not white, the small one exactly when it is white |
| `EciData.FirstStop` | src/components/visualiser/data.js:40-45 | the first triple from i on that is incomplete or has no position; every triple before it has one |
| `EciData.Placed` | src/components/visualiser/data.js:41-57 | k datapoints, datapoint j coming from triple j, named by line 3j and placed at the swapped and scaled position |
| `EciData.RunLines` | src/components/visualiser/data.js:40-59 | the loop appends one datapoint per triple up to the first stop, and throws at that stop unless it lies past the last triple |
| `EciData.LoadComplete` | src/components/visualiser/data.js:36-60 | the load throws nothing exactly when L mod 3 != 2 and every pass has a position; it then has one datapoint per pass, datapoint i coming from triple i, with no filtering |
| `EciData.LoadStopsAtFirst` | src/components/visualiser/data.js:43-45 | an undefined position at complete triple i, after defined ones, throws there, after exactly the datapoints of triples 0 to i-1 |
| `EciData.DataSet.constructor` | src/components/visualiser/data.js:11-31 | type "satellite-tle" loads the raw text; "blank" and every other type leave `datapoints` empty and throw nothing |
| `EciData.DataSet.ProcessTLE` | src/components/visualiser/data.js:36-60 | `datapoints` grows by exactly the load's datapoints at the one instant `now`, and the error thrown is the load's |
| `EciData.DataSet.ReadTriples` | src/components/visualiser/data.js:40-59 | the loop appends the placed datapoints up to the first stop, and its error is that stop's |
| `EciData.DataSet.RenderDataPoints` | src/components/visualiser/data.js:66-69 | the scene gains each datapoint's sphere exactly once, in `datapoints` order, after its earlier children |

## Left out

- satellite.js (`twoline2satrec`, `propagate`, `eciToEcf`, `gstime`) is foreign SGP4 code. It is modelled as the uninterpreted function values of `Satellite.Propagator`. `propagate` returns `Option<Vec3>`, with `None` standing for an `undefined` position. The model does not distinguish a `false` position from an `undefined` one.
- A missing TLE line 2 is taken to throw inside `twoline2satrec` in `src/data.js` and `src/components/visualiser/data.js`, just as `split` on `undefined` throws in `src/js/data.js`. The satellite.js sources are not part of this model.
- The clock (`new Date()`) is the parameter `now`, and `this.scene`/`scene` is a `Three.Scene` object. Camera and renderer fields are not modelled.
- `EcfData.EcfPoint`: the `earthTilt` rotation done by the `ECFDataPoint` constructor (src/data.js:90, defined at 96-98) is not modelled. The same holds for the `earthRotation(calculateEarthRotation())` call in `renderECFDataPoints` (src/data.js:75, defined at 104-107 and 114-126). Both are floating-point axis rotations, and one of them also reads the clock. The stored position is therefore the one the colour rule tests, before the rotations.
- `EcfData.DataSet.RenderECFDataPoints`: states the order and contents of the added meshes but not the rotation above.
- The mesh and material objects of Three.js (`THREE.Mesh`, `MeshBasicMaterial`, `material.clone()`, `position.copy`) are reduced to the `Mesh(position, geometry, colour)` value. Three.js re-parenting of a mesh that already has a parent is not modelled.
- `DataPoint` in src/js/data.js: `orbitaltoCartesian` is an empty method and `createPoint` only builds a mesh, so `DataPoint` is kept as a value.
- `console.log` calls (src/js/data.js:41, src/components/visualiser/data.js:70) are output only.
- Coordinates are `real`, not IEEE doubles: the rounding of the 0.05 comparisons and of the scaling is not modelled.
- Strings are sequences of code points, not of UTF-16 code units, so a whitespace character outside the Basic Multilingual Plane is not an issue here.
- `src/utils.js`, the graphics modules, the React components and the generated build output hold no loader logic and are not part of this model.
