# Cars scatterplot: selection and scene state

This project models the data-selection and state core of a D3 scatterplot of car
fuel efficiency (`script.js`). It covers:

- the load callback: it drops the cars whose `Horsepower` or `Miles_per_Gallon` is
  falsy, coerces both fields to numbers and stores the result in `currentData`;
- the `[min, max]` extents that fix the horsepower (x) and miles-per-gallon (y) scale
  domains once, at load;
- `renderScene(scene, region = "All")`: it records `currentScene` and shows the
  region-filter wrapper only in scene 4. It draws every loaded car, or in scene 4
  with a region other than "All" only the cars of that origin. It then adds the
  scene's annotation: a fixed caption at (150, 15) or (90, 30) in data coordinates
  for scenes 1 and 2, the worst-MPG car at its own coordinates for scene 3, none
  for scene 4;
- the wiring: scene buttons call `renderScene(k)`, the dropdown calls
  `renderScene(4, value)`;
- the tooltip: mouseover shows `Name (Origin) - MPG MPG` only in scene 4, and
  mouseout always hides it.

Files:

- `wrappers.dfy`: `Option` and `Result`.
- `seqs.dfy`: `Filter`, an order-preserving filter, with its properties.
- `cars.dfy`: raw and loaded records, the load specification (`Loaded`) and `Extent`.
- `scene.dfy`: the pure part of one render (`Drawn`, `Annotate`, `Render`), the
  scene-3 reduce (`WorstMpg`), the tooltip rules and the event routing (`Route`).
- `chart.dfy`: class `AppState`, which holds the page's mutable state
  (`currentData`, `currentScene`, the scale domains, the wrapper's display, the
  tooltip). Its methods `Load`, `RenderScene`, `Handle`, `Hover` and `Leave` are
  proved against the functions above. `HoverSession` is a client of the class: it
  loads any data, hovers a car in scene 1, presses the scene-4 button and hovers
  again, and its assertions show what the contracts let a caller conclude.

Numbers are `real`. A raw numeric field is `Absent` (missing or null) or
`Number(v)`, and it is truthy exactly when it is a `Number` other than 0.

Three behaviours of the code worth stating:

- Ties in scene 3: the reduce `a.Miles_per_Gallon < b.Miles_per_Gallon ? a : b`
  (script.js:80) keeps the accumulator only when it is strictly smaller, so the
  last car with the least MPG is annotated (`WorstMpgIsLastOfTies`, `TieGoesToLater`).
- The scene buttons pass no region (script.js:35-38), so every button, scene 4's
  included, renders with region "All" (`ButtonDrawsAll`).
- Reducing an empty array without an initial value throws after the markers are
  drawn (script.js:80). The model reports it as `Err(ReduceOfEmptyArray)` in the
  frame's annotation; the scene and wrapper-display updates made before it
  (script.js:45-46) stay in place.

## Model

| member | source | states |
|---|---|---|
| `Seqs.Filter` | script.js:23 | every kept element satisfies the test and comes from the input; every input element that satisfies it is kept; the result is no longer than the input |
| `Seqs.FilterIsSubsequence` | script.js:51 | the filtered records appear in the input's order (the result is a subsequence) |
| `Seqs.FilterCount` | script.js:51 | each satisfying element is kept as often as it occurs, and every other element is dropped |
| `Seqs.FilterAppend` | script.js:23 | filtering distributes over concatenation |
| `Cars.Truthy` | script.js:23 | a raw numeric field is truthy iff it is a number other than 0 (no contract; used by Usable) |
| `Cars.Usable` | script.js:23 | the load filter's test: both numeric fields truthy (no contract; pinned down by LoadedSingle) |
| `Cars.Coerce` | script.js:24-27 | a coerced record has non-zero horsepower and MPG and carries the raw record's name, origin and numbers |
| `Cars.KeepValid` | script.js:23 | every kept raw record has truthy horsepower and MPG |
| `Cars.CoerceAll` | script.js:24-27 | coercion keeps the length and coerces position by position |
| `Cars.Loaded` | script.js:23-28 | the loaded data is no longer than the input and every record has non-zero fields; LoadedSingle, LoadedAppend and LoadedMembers pin it down |
| `Cars.LoadedNonzero` | script.js:23-28 | every loaded record has non-zero horsepower and MPG |
| `Cars.LoadedSingle` | script.js:23-28 | one raw record loads as its coercion when both fields are truthy, and as nothing otherwise |
| `Cars.LoadedAppend` | script.js:23-28 | loading distributes over concatenation, so the kept records keep their input order; with `LoadedSingle` this determines the load step completely |
| `Cars.LoadedMembers` | script.js:23-28 | a record is loaded iff some input record with both fields truthy coerces to it |
| `Cars.Extent` | script.js:30-31 | the extent is absent iff the data is empty; otherwise lo <= hi and every record's value lies in [lo, hi] |
| `Cars.ExtentAttained` | script.js:30-31 | both ends of the extent are values of some record |
| `Cars.ExtentCovers` | script.js:30-31 | every record of a sub-collection lies inside the extent of the whole collection |
| `Scene.FilterRegion` | script.js:50-52 | the region filter keeps exactly the records whose origin equals the region |
| `Scene.WorstMpg` | script.js:80 | the reduce returns one of the records |
| `Scene.WorstMpgAt` | script.js:80 | the reduce's result sits at the last position of least MPG |
| `Scene.WorstMpgIsMinimum` | script.js:80 | the worst-MPG record is in the data and its MPG is at most every record's |
| `Scene.WorstMpgIsLastOfTies` | script.js:80 | any last position of least MPG holds exactly the record the reduce returns, so ties go to the later record |
| `Scene.LessMpg` | script.js:80 | the reduce step returns one of its two records, with MPG at most both, and the second record when the MPGs tie |
| `Scene.WorstLabel` | script.js:81 | the scene-3 label is "Worst MPG: " followed by the car's name, and the name reads back from it |
| `Scene.Drawn` | script.js:49-52 | every drawn record is a loaded record; RenderDrawsAll and RenderDrawsRegion say which |
| `Scene.Annotate` | script.js:75-82 | the annotation step fails exactly for scene 3 on empty data, annotates exactly scenes 1 to 3, and anchors scene 3 at some record's coordinates; AnnotationPerScene and Scene3AnnotatesWorst give the annotation itself |
| `Scene.Render` | script.js:44-82 | the pure part of renderScene: drawn records come from the data, and it fails exactly for scene 3 with nothing drawn; see RenderDrawsAll, RenderDrawsRegion, RegionIgnoredOutsideScene4, AnnotationPerScene, Scene3AnnotatesWorst |
| `Scene.RenderDrawsAll` | script.js:49-52 | unless the scene is 4 and the region is not "All", the drawn set is exactly the loaded data |
| `Scene.RenderDrawsRegion` | script.js:49-52 | in scene 4 with a region other than "All", the drawn records are exactly that origin's records, with their multiplicities, in the data's order |
| `Scene.RegionIgnoredOutsideScene4` | script.js:50 | outside scene 4 the region argument changes nothing that is rendered |
| `Scene.DrawnWithinDomains` | script.js:30-31 | in every scene and region, every drawn record lies within the domains taken from the whole data set at load |
| `Scene.AnnotationPerScene` | script.js:75-82 | scene 1 gets its caption at (150, 15) and scene 2 its caption at (90, 30); scene 3 gets one annotation, or the reduce error exactly when the data is empty; scene 4 gets none |
| `Scene.Scene3AnnotatesWorst` | script.js:79-81 | for any region, scene 3 annotates the last least-MPG record of the whole data set, at its own (horsepower, MPG), labelled with its name |
| `Scene.TooltipText` | script.js:67 | the tooltip text starts with the car's name, ends with " MPG" and is 10 characters longer than its three variable parts; TooltipTextParts reads every part back |
| `Scene.TooltipTextParts` | script.js:67 | the tooltip text is the name, " (", the origin, ") - ", the MPG text and " MPG", each read back at its offset |
| `Scene.MouseOver` | script.js:65-69 | in scene 4 the tooltip becomes visible with the car's text; in other scenes it is left as it was |
| `Scene.MouseOut` | script.js:73 | mouseout hides the tooltip in every scene |
| `Scene.HiddenOutsideScene4` | script.js:65-73 | outside scene 4 a hidden tooltip stays hidden through a hover and the following mouseout |
| `Scene.Route` | script.js:35-41 | buttons render scene k with region "All"; the dropdown renders scene 4 with its value; only button 4 and the dropdown reach scene 4 |
| `Scene.ButtonDrawsAll` | script.js:35-38 | every scene button, scene 4's included, draws the full data set |
| `Scene.RegionChangeDraws` | script.js:39-41 | a dropdown change moves to scene 4 and draws exactly the chosen origin's records, or all records for "All" |
| `Chart.CoerceEach` | script.js:24-27 | the forEach loop coerces each kept record in order, and every result has non-zero fields |
| `Chart.AppState.constructor` | script.js:18-20 | the page starts with no data, scene 1, no domains and a hidden, empty tooltip |
| `Chart.AppState.RenderScene` | script.js:44-52 | afterwards currentScene is the scene, the wrapper is shown iff the scene is 4, the frame is the specified render of currentData, and the data and domains are unchanged |
| `Chart.AppState.Load` | script.js:22-33 | currentData is the load of the input, the domains are its extents, scene 1 is rendered with region "All", the wrapper is hidden and the handlers are attached |
| `Chart.AppState.Handle` | script.js:35-41 | before load, events change nothing; after load, an event renders exactly what its route names |
| `Chart.AppState.Hover` | script.js:65-69 | hovering updates the tooltip by the mouseover rule for the current scene |
| `Chart.AppState.Leave` | script.js:73 | leaving a marker updates the tooltip by the mouseout rule |
| `Chart.SampleDomainsAndWorst` | script.js:30-31 | for the two-car sample the domains are [100, 200] and [15, 40], and scene 3 reads "Worst MPG: B" at (200, 15) |
| `Chart.TieGoesToLater` | script.js:80 | of two cars with equal MPG, the reduce picks the second |
| `Chart.SampleTooltip` | script.js:67 | the sample's car B hovered in scene 4 reads "B (USA) - 15 MPG" |

## Left out

- All DOM and SVG work is left out. This covers selecting elements, appending groups, the axes and their labels, circles, styles, clearing the group and drawing the annotation callout (script.js:1-9, 18, 47, 54-64, 85-97). A render is modelled as the records it draws plus the annotation it adds.
- The `d3.json` fetch is asynchronous I/O (script.js:22). `Load` receives the already-parsed array. A failed fetch is not modelled.
- The linear and ordinal scales and every pixel mapping are left out (script.js:11-16). Anchors and domains stay in data coordinates. Before load, d3's default scale domain is modelled as `None`.
- JavaScript's `+` string-to-number coercion and the truthiness of `NaN` and `""` are abstracted (script.js:23-26). A raw field is either absent or a number, and NaN values are not modelled.
- The conversion of the MPG number to text in the tooltip template is JavaScript's number formatting. It is a parameter `show: real -> string`.
- Tooltip positioning on mousemove and the colour strings are presentation only (script.js:70-72).
- The region-filter wrapper's display before the first render comes from the page markup, which is not part of this model. It is a constructor parameter.
- Chart.AppState.Hover: the source's handler tests the `scene` captured when its marker was drawn. The model uses `currentScene`. The two agree because every render removes the old markers before drawing new ones.
- Chart.CoerceEach: the source coerces the parsed objects in place. The model builds coerced values instead. Nothing else refers to the parsed objects after load, so no aliasing is lost.
