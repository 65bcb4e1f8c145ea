# StarLink world map: the satellite tracking session, in Dafny

This project models the tracking core of the StarLink web client's `WorldMap`
component. Two things happen when the user changes the satellite selection.
First, the component fetches one position series per selected satellite.
Then it plays the series back on an overlay canvas, one frame per timer firing.
While one animation runs, later batches are turned away, and a hint line says so.
The model covers five parts:

- the request batch (`Batch`): one request per selected satellite, all with the
  horizon `duration * 60`, joined all-or-nothing in selection order;
- the session flags and busy guard (`Tracking.WorldMap`): `isLoading`,
  `isDrawing`, the hint text, the `prevState.isDrawing` check;
- the frame loop (`Tracking.FrameLoop`): the `setInterval` callback becomes an
  explicit `Tick(ct)`, with wall-clock time `ct` in milliseconds; the counter
  `i` and the armed/cleared status are fields;
- the marker filter and label of `drawSat` (`Frames`, `Labels`): falsy
  coordinates are skipped, and the label joins every digit run of `satname`;
- the colour lookup (`Colours`): d3's ordinal scale over `schemeCategory10`,
  a memo table that hands out palette entries in first-seen order and cycles
  after ten.

Drawing is a list of abstract commands: `Clear`, `Timestamp(ms)`, and
`Draw(Marker(track, step, caption, colour))`. Coordinates are `Option<real>`,
with None for an absent value. Projection is not modelled. The network is
modelled as already-settled results: `Settle` receives one `Option<SatData>`
per request. Timer firings and the wall clock are explicit inputs.
`Sessions` drives whole sessions through these classes.

The model follows the code where it differs from the design description of the
system:

- A batch is fetched, and `isLoading` raised, even while an animation runs.
  The refusal comes only after the batch has arrived. It tests
  `prevState.isDrawing` as it was when the update ran, not the state on
  arrival. So two updates issued before either batch arrives both arm a loop
  (`Sessions.OverlappingBatches`). The design says only one loop may run,
  and says a busy request is refused at once.
- A failed batch only logs, so `isLoading` stays true
  (`Sessions.FailedBatchKeepsLoading`). The design says the loading state is
  cleared.
- "no position data" is thrown only when `data[0]` has no `positions` property.
  An empty `positions` array arms a loop whose first tick stops it
  (`Sessions.EmptyPositionsStopAtOnce`). The design says zero samples abort
  the session.
- `track` throws inside `.then` after `isDrawing` has been set, and the
  `.catch` only logs. No loop ever clears the flag, so every later batch is
  refused with the hint (`Sessions.NoPositionDataLocksOut`). The same happens
  when the world map has not been drawn yet (`this.map` is null,
  `Sessions.MapNotLoaded`). The design says the session returns to idle.
- The loop stops on the first tick with `i >= len`, not when `i` exceeds `len`.
- Two things are keyed on the digit label of `satname`, not on the satellite
  id: the colour and the marker text. A name without digits throws only where
  `drawSat` gets past its coordinate test: once a visible sample of a satellite
  with a digit-free name is reached, `drawSat` throws on that tick and on every
  later one. The throw leaves `i` unchanged and the timer armed, so the loop
  never ends (`Sessions.DigitFreeNameFreezesLoop`). A track that is too short
  does the same, because `positions[i]` is undefined and `drawSat` cannot
  destructure it. A track with no `positions` property does the same one step
  earlier: `positions` itself is undefined, so reading `positions[i]` in the
  `forEach` throws. The model treats this as an error path
  (`Paint.failedAt`). It is not a precondition of every tick. Only
  `Sessions.PlayToEnd` assumes that every track can be drawn at every index
  below `len`.

## Model

| member | source | states |
|---|---|---|
| `Batch.Requests` | src/components/WorldMap.js:58-70 | one request per selected satellite in selection order, each with that satellite's id, the observer's latitude, longitude and elevation, and the shared horizon `duration * 60` |
| `Batch.TwoSatelliteBatch` | src/components/WorldMap.js:58-70 | selection [25544, 43205] with a 10-minute duration gives exactly two requests, in that order, each with horizon 600 |
| `Batch.Aggregate` | src/components/WorldMap.js:73-76 | the batch succeeds exactly when every request succeeded; the result then has one entry per request, the k-th being the k-th response |
| `Batch.AggregateRoundTrip` | src/components/WorldMap.js:73-76 | aggregation is the inverse of resolving every request: it yields the values exactly when each result is that value |
| `Batch.BatchFollowsSelection` | src/components/WorldMap.js:65-76 | a successful batch holds exactly one track per selected satellite, in selection order |
| `Tracking.WorldMap.constructor` | src/components/WorldMap.js:24-35 | a fresh component is neither loading nor drawing, has an empty hint, no map yet and an empty colour domain |
| `Tracking.WorldMap.GenerateMap` | src/components/WorldMap.js:234-239 | after the base map is drawn the overlay context exists; the flags and hint are untouched |
| `Tracking.WorldMap.DidUpdate` | src/components/WorldMap.js:48-70 | an unchanged selection does nothing; a changed one raises `isLoading` and issues the batch whatever `isDrawing` is, recording `prevState.isDrawing` |
| `Tracking.WorldMap.Settle` | src/components/WorldMap.js:73-94 | a failed batch changes no flag (`isLoading` stays up); a successful one clears `isLoading` and sets `isDrawing`, then sets the hint to the wait message if the update saw a running animation, otherwise calls `track` and arms a loop or reports its error |
| `Tracking.TrackCheck` | src/components/WorldMap.js:98-109 | `track` goes ahead exactly when there is a first track, it has `positions` and the map exists; no tracks and a first track without `positions` are told apart, and the map is consulted last |
| `Tracking.WorldMap.Track` | src/components/WorldMap.js:98-115 | fails for an empty batch, for a first track without `positions` ("no position data") and for a missing map; only `data[0]` is inspected; otherwise arms a loop with counter 0, the start time and `len` = the first track's length |
| `Tracking.WorldMap.DrawSat` | src/components/WorldMap.js:149-160 | a sample with a falsy coordinate is skipped; otherwise the digit label is derived (throwing when there is none) and the scale is asked for its colour |
| `Tracking.FrameLoop.constructor` | src/components/WorldMap.js:105-115 | a new timer is armed with `i` = 0 over the given tracks |
| `Tracking.FrameLoop.Tick` | src/components/WorldMap.js:115-146 | a cleared timer does nothing; an armed one emits clear and timestamp first; with `i >= len` it stops, clears `isDrawing` and the hint and emits nothing else; otherwise it emits the markers of all tracks at sample `i` and steps `i` by 60, or keeps `i` and stays armed when drawing threw |
| `Tracking.FrameLoop.DrawTracks` | src/components/WorldMap.js:140-143 | the `forEach` loop over the tracks at sample `step` paints exactly the markers `Paint` describes, stops at the same throwing track, and leaves the colour scale's domain where `Paint` does |
| `Frames.Truthy` | src/components/WorldMap.js:152 | an absent coordinate and a zero coordinate are falsy; every other number is truthy |
| `Frames.SatMarker` | src/components/WorldMap.js:149-160 | `drawSat` returns early exactly when a coordinate is falsy, throws exactly when it gets past that test with a digit-free name, and otherwise paints a marker for this track and sample whose text is the name's digits and whose colour is that text's palette entry once the scale has seen it |
| `Frames.DrawTrackStep` | src/components/WorldMap.js:140-160 | one `forEach` step (`DrawTrack`): after a throw it changes nothing; a track with no sample `i`, or a visible one with a digit-free name, records the throw at this track; a hidden sample is skipped; a shown one appends its marker |
| `Frames.PaintMarkers` | src/components/WorldMap.js:140-155 | every marker of a tick is for sample `i` of a track whose sample is shown, carries that track's digit label, and there is at most one marker per track, in track order |
| `Frames.PaintComplete` | src/components/WorldMap.js:140-152 | up to where drawing stopped, exactly the tracks with both coordinates truthy get a marker, in track order |
| `Frames.PaintFailure` | src/components/WorldMap.js:140-155 | a tick throws exactly when some track has no sample `i` or a visible sample with a digit-free name; it stops at the first such track |
| `Frames.PaintAbsorbs` | src/components/WorldMap.js:140-143 | once a track throws, the rest of the `forEach` paints nothing |
| `Frames.PaintColours` | src/components/WorldMap.js:155-160 | each marker's colour is the scale's entry for its label, and the scale's domain only grows and stays duplicate-free |
| `Frames.SameLabelSameColour` | src/components/WorldMap.js:160 | two markers with equal labels get the same palette entry |
| `Frames.Paint` | src/components/WorldMap.js:140-143 | drawing the tracks of one tick only extends the colour domain and paints at most one marker per track |
| `Frames.LogicalTime` | src/components/WorldMap.js:117-121 | the first frame shows the start time, and no frame shows a time before the start while the wall clock is not behind it |
| `Frames.TimestampRate` | src/components/WorldMap.js:117-121 | once the counter has moved, each millisecond of wall clock advances the displayed time by sixty |
| `Frames.TimestampMonotone` | src/components/WorldMap.js:111-121 | the logical time `now + 60 * elapsed`, with elapsed 0 while `i` is 0, never goes back when the wall clock does not |
| `Labels.RunLength` | src/components/WorldMap.js:155 | the greedy `\d+` match at the front: all digits, and followed by a non-digit or the end |
| `Labels.Join` | src/components/WorldMap.js:155 | `join("")` keeps every character of every match and adds none |
| `Labels.DigitRuns` | src/components/WorldMap.js:155 | every match of `/\d+/g` is non-empty and all digits |
| `Labels.JoinedRunsAreDigits` | src/components/WorldMap.js:155 | joining the matches gives exactly the digits of the name, in order |
| `Labels.NoRunsIffNoDigits` | src/components/WorldMap.js:155 | `match` finds nothing exactly when the name holds no digit |
| `Labels.DigitsEmptyIff` | src/components/WorldMap.js:155 | the digit string is empty exactly when the name holds no digit |
| `Labels.NameLabel` | src/components/WorldMap.js:155 | the label exists exactly when the name holds a digit, and is then the name's digits in order |
| `Labels.StarlinkLabel` | src/components/WorldMap.js:155 | "STARLINK-24" is labelled "24" |
| `Labels.JoinedLabel` | src/components/WorldMap.js:155 | "NOAA 15 (A2)" is labelled "152": separate runs are concatenated |
| `Labels.DigitFreeLabel` | src/components/WorldMap.js:155 | "ISS (ZARYA)" has no label, so `drawSat` throws for it |
| `Colours.IndexOf` | src/components/WorldMap.js:31 | a known key's position in the scale's domain is its first occurrence |
| `Colours.Extend` | src/components/WorldMap.js:31 | asking about a key adds it to the end of the domain once, and leaves a known key's domain unchanged |
| `Colours.ColourAt` | src/components/WorldMap.js:31 | a key's colour is one of the ten palette entries |
| `Colours.ColourScale.Apply` | src/components/WorldMap.js:31 | the scale remembers the key and answers the palette entry at its first-seen index modulo 10 |
| `Colours.ColourScale.constructor` | src/components/WorldMap.js:31 | a new ordinal scale has an empty domain |
| `Colours.ColourStable` | src/components/WorldMap.js:31 | a key keeps its colour whatever keys are seen later, across frames and sessions |
| `Colours.IndexStable` | src/components/WorldMap.js:31 | extending the domain never moves a key already in it |
| `Colours.ExtendKeepsNoDuplicates` | src/components/WorldMap.js:31 | the domain never holds a key twice |
| `Colours.ColourOfPosition` | src/components/WorldMap.js:31 | the key seen j-th gets palette entry j modulo 10 |
| `Colours.DistinctUntilExhausted` | src/components/WorldMap.js:31 | distinct keys never share a colour while at most ten keys have been seen |
| `Colours.PaletteCycles` | src/components/WorldMap.js:31 | the eleventh distinct key gets the first key's colour again |
| `Colours.PaletteDistinct` | src/components/WorldMap.js:31 | the ten `schemeCategory10` entries are pairwise different |
| `Sessions.PlayToEnd` | src/components/WorldMap.js:113-146 | when every track can be drawn at every index below `len`, an armed loop takes ceil(len/60) advancing ticks and one stopping tick, then has `isDrawing` false and an empty hint |
| `Sessions.NoPositionDataLocksOut` | src/components/WorldMap.js:79-103 | after a "no position data" failure, `isDrawing` stays true and the next successful batch is refused with the hint |
| `Sessions.OverlappingBatches` | src/components/WorldMap.js:48-85 | two batches issued before either settles both arm a running loop |
| `Sessions.EmptyPositionsStopAtOnce` | src/components/WorldMap.js:100-138 | an empty `positions` array arms a loop whose first tick paints only the clear and the timestamp, then stops |
| `Sessions.MapNotLoaded` | src/components/WorldMap.js:79-109 | a batch settling before the world map is drawn fails in `track` and leaves `isDrawing` true |
| `Sessions.FailedBatchKeepsLoading` | src/components/WorldMap.js:60-62 | one failed request fails the batch; `isLoading` stays true and `isDrawing` stays false |
| `Sessions.DigitFreeNameFreezesLoop` | src/components/WorldMap.js:115-155 | a visible sample of a satellite whose name has no digit throws on every tick; `i` stays 0 and the timer stays armed |

## Left out

- src/components/Main.js is not part of this model. It only fetches the nearby-satellite list and wires up UI children.
- Canvas painting: `clearRect`, `arc`, `fill`, `fillText`, fonts, styles, the marker radius and the label offset. Each is one abstract command.
- The projection (`geoKavrayskiy7`), `geoPath`, the graticule, and the land painting of `generateMap`. These are floating-point numerics inside d3. `GenerateMap` records only that the overlay context exists.
- The world-map fetch and the TopoJSON conversion in `componentDidMount`. A failure there means that `GenerateMap` is never called.
- axios, the URL text, the category and the API key, and `Promise.all` timing. A request keeps only the fields the URL is built from. A batch arrives as one settled result per request. Which rejection `Promise.all` reports does not matter, because the `.catch` only logs it.
- `setInterval` timing (1000 ms). Ticks are explicit calls with the wall clock as a parameter.
- The text form of the timestamp (`d3TimeFormat(time)` ends up drawing the date's own string). The command carries the logical time in milliseconds.
- React `render`, the spinner, and `setState` batching. State changes take effect at once.
- Console logging, and the `document.getElementsByClassName` lookup. The hint is a string field.
- NaN coordinates (also falsy in JavaScript), and a missing `info` or `satname`. Coordinates are absent-or-real, and every response carries a name.
- A `positions` property that is present but not an array.
- Batch.Requests: the observer's `duration` is a whole number of minutes (`Observer.duration: int`). In the source it is any JavaScript number, so `duration * 60` can be fractional; fractional durations and floating-point rounding of the horizon are not modelled.
