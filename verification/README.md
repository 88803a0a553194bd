# Earthquake map presentation rules

The leaflet-challenge page fetches the USGS monthly earthquake feed and
draws every event on a map. Each event becomes a circle marker. The
marker's radius is the magnitude times five. Its fill colour is a step
function of depth: red above 100 km, orange above 50 km, yellow above
20 km, green otherwise. The stroke is black and the fill opacity is 0.8.
A legend in the bottom-right corner is meant to list the four depth bands
with their colours. As written, it lists only the first three (see
"## Findings").

This project models those pure presentation rules in three modules:

- `Depth` (`depth.dfy`): the depth-to-colour classifier `GetColor`. It is
  checked against an independent partition of depths into four bands
  (`Bucket.Contains`). The module proves the exact interval for each colour,
  totality and monotonicity.
- `Markers` (`markers.dfy`): the feature record, the circle-marker options
  derived from it (`ToMarker`), and the layer-building loop that makes one
  marker per feature in feed order (`ToMarkers`).
- `Legend` (`legend.dfy`): the legend's add-hook, modelled as a pure function
  from the iterated list and the label list to the markup string. The module
  covers both the code as written and a corrected version.

Depths and magnitudes are `real`. The marker options are a datatype. The
legend markup is a `string`.

The comparisons are strict `>`, so 100 km is orange, 50 km is yellow and
20 km is green (`Depth.BoundaryDepths`). Of the legend captions, only
`>100` matches the classifier exactly. The captions `<20` and `20-50`
place a depth of exactly 20 km in the yellow band, but the classifier
colours it green. The captions `20-50` and `50-100` read as ranges that
include both ends, whereas the classifier's bands are open below and
closed above (`Depth.Bucket.Contains`).

A position with no third coordinate has an `undefined` depth. Every `>`
comparison against `undefined` is false, so the classifier returns green.
`Markers.DepthColor` models this with an optional depth.

## Model

| member | source | states |
|---|---|---|
| Depth.GetColor | Leaflet-Part-1/logic.js:81-86 | red exactly when depth > 100; orange exactly when 50 < depth <= 100; yellow exactly when 20 < depth <= 50; green exactly when depth <= 20; the result is always one of the four colours |
| Depth.BucketOf | Leaflet-Part-1/logic.js:82-85 | the four depth bands partition the line: every depth lies in exactly one band |
| Depth.HexInjective | Leaflet-Part-1/logic.js:82-85 | the four bands have four distinct colours, so a colour identifies its band |
| Depth.ColorIsBucketHex | Leaflet-Part-1/logic.js:81-86 | the classifier's colour is the colour of the band that holds the depth |
| Depth.ColorIdentifiesBucket | Leaflet-Part-1/logic.js:81-86 | a depth is drawn in a band's colour if and only if it lies in that band |
| Depth.GetColorMonotone | Leaflet-Part-1/logic.js:81-86 | a greater depth never gets a shallower colour in the order green < yellow < orange < red |
| Depth.BoundaryDepths | Leaflet-Part-1/logic.js:82-85 | the thresholds fall in the shallower band: 100 km is orange, 50 km is yellow, 20 km, 0 km, -3.5 km and every depth at or below 0 km are green |
| Markers.DepthColor | Leaflet-Part-1/logic.js:30-31 | a present depth gets the colour of its band; a missing third coordinate gets green |
| Markers.ToMarker | Leaflet-Part-1/logic.js:24-39 | the marker sits at the feature's latitude and longitude, swapped from the feed's [lon, lat] order; the radius is exactly five times the magnitude; the fill colour is the colour of the band holding the depth, and green when the third coordinate is missing; the stroke is `#000` and the fill opacity 0.8 |
| Markers.MagnitudeRoundTrip | Leaflet-Part-1/logic.js:26-27 | the magnitude can be recovered exactly from the radius: no clamping or rounding |
| Markers.RadiusMonotone | Leaflet-Part-1/logic.js:26-27 | a larger magnitude gives a strictly larger radius, and equal magnitudes give equal radii |
| Markers.ExampleFeature | Leaflet-Part-1/logic.js:24-39 | magnitude 4.0 at [-100, 35, 30] gives radius 20, yellow fill, position (35, -100) |
| Markers.ToMarkers | Leaflet-Part-1/logic.js:23-41 | exactly one marker per feature, in input order, each the marker of the feature at the same index; an empty feed gives no markers |
| Legend.JoinAppend | Leaflet-Part-1/logic.js:101-103 | appending a label to the list appends that label and a line break to the markup |
| Legend.JoinConcat | Leaflet-Part-1/logic.js:101-103 | the markup of two label lists joined is the two markups joined |
| Legend.Emitted | Leaflet-Part-1/logic.js:94-103 | one label per entry of the iterated list; when the label list is long enough these are its leading entries; when it is shorter, all labels come first and each entry past its end reads `undefined` |
| Legend.RenderLegend | Leaflet-Part-1/logic.js:92-106 | the add-hook's loop yields the markup of the emitted labels, each followed by `<br>` |
| Legend.LegendAsWritten | Leaflet-Part-1/logic.js:94-103 | as written, the legend shows 4 lines (the header and three bands); the `>100` line is never emitted and is exactly what the full label list would add |
| Legend.LabelIsSwatch | Leaflet-Part-1/logic.js:95-99 | each swatch label is the colour and caption of its band, in band order |
| Legend.LegendLines | Leaflet-Part-1/logic.js:95-99 | the intended legend is the header followed by one swatch per band, in order from shallow to very deep |
| Legend.RenderLegendFixed | Leaflet-Part-1/logic.js:92-106 | the corrected add-hook emits the header line and then all four band lines |
| Legend.SwatchesMatchClassifier | Leaflet-Part-1/logic.js:96-99 | each band's swatch has the colour the classifier gives every depth in that band |
| Legend.InteriorDepthExamples | Leaflet-Part-1/logic.js:96-98 | the swatches have the colours of depths 10, 30, 75 and 150 km |

## Left out

- The feed fetch and its promise hand-off (logic.js:5-8) is network I/O through a library. Its unhandled failure path is not modelled.
- Map construction, the two tile layers, the base-map and overlay objects, and the centre and zoom (logic.js:47-78) are widget-library calls with no logic of their own.
- The top-level layer-control call (logic.js:114-116) is widget plumbing and is not modelled. It names `baseMaps`, `overlayMaps` and `myMap`, which are locals of `createMap`, so at top level it would throw a ReferenceError.
- The popup markup and the locale formatting of `new Date(time)` (logic.js:14-19) depend on the DOM and the host locale. `Feature.place` and `Feature.time` are carried but not used.
- Creating the legend element and mutating its `innerHTML` (logic.js:93, 102) are modelled as a pure string: the concatenation of what the hook assigns. It is not what `innerHTML` reads back. The DOM re-serializes the markup on each `+=`, so the captions `<20` and `>100` read back as `&lt;20` and `&gt;100`. Attaching the control to the map is not modelled.
- Markers.ToMarker: the `latlng` argument is computed by the mapping library, which is not part of this model. The model assumes the library's usual GeoJSON order, latitude = second coordinate and longitude = first.
- Markers.ToMarkers: the mapping library calls `pointToLayer` only for features that carry a geometry. "One marker per feature" assumes every feed record has a point geometry. Records without a geometry, and non-point geometries, are not modelled.
- Markers.ToMarker: JavaScript numbers are IEEE-754 doubles. The model uses exact `real` arithmetic, so `mag * 5` is never rounded.
- Markers.ToMarker: a feed record whose `mag` is `null` gets radius 0 in JavaScript (`null * 5`). The model takes the magnitude as a number.
- Non-numeric depth values other than a missing coordinate are not modelled.

## Findings

| source | as written | input that shows it | evidently intended | confidence | as-written member | corrected member |
|---|---|---|---|---|---|---|
| Leaflet-Part-1/logic.js:94-103 | the loop runs over `depths` (4 entries) but reads `labels` (5 entries) at the same index, so it emits the header and only the first three bands | any map: the markup ends after the `50-100` line and the `>100` swatch never appears | the header followed by all four band swatches, as the label list and the colour classifier have four bands | high; not executed | Legend.LegendAsWritten | Legend.RenderLegendFixed |
