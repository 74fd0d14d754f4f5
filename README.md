# NDVI vegetation-density classifier

A Dafny model of the classification logic of the NDVI vegetation monitoring app
(`app.py`). The app builds a median NDVI composite from Sentinel-2 imagery over
Karnataka. It then classifies that composite in two ways:

- **Raster masks** (`app.py:58-61`). Four boolean images are built from the composite
  with `gt`, `lte` and `And`: `dense` (v > 0.6), `moderate` (0.4 < v ≤ 0.6),
  `sparse` (0.2 < v ≤ 0.4) and `nonveg` (v ≤ 0.2).
- **Point labels** (`app.py:117-146`). About 300 points are sampled from the composite.
  `classify_point` uses a nested conditional to set each point's `"Class"` property to
  `"Dense"`, `"Moderate"`, `"Sparse"` or `"Built-up"`. The labelled collection is then
  split into four point layers by exact string match on `"Class"`.

The model has two modules:

- `Classifier` (`classifier.dfy`) holds the classes, the thresholds, the point label
  `Label`, and the raster form `ClassifyRaster`. An image is a `seq<real>` of pixel
  values. `Gt`, `Lte` and `And` are pixel-wise, like the Earth Engine image operations
  they stand for.
- `SamplePoints` (`sample_points.dfy`) holds features. A feature is a point location
  plus a property map. The module models `classify_point`, the `map` over the sampled
  collection, and the four `"Class"` filters.

NDVI values are modelled as `real`s. The classifier only compares them against the
constants 0.2, 0.4 and 0.6, so for finite values the model needs no floating-point
arithmetic. NaN is not modelled (see "Left out").

**Boundary behaviour.** Each band is open below and closed above. At exactly 0.4,
`gt(0.4)` (`app.py:59`, `app.py:124`) fails and `lte(0.4)` (`app.py:60`) holds, so the
value is Sparse. In the same way, 0.6 is Moderate and 0.2 is Built-up.

## Model

| member | source | states |
|---|---|---|
| `Classifier.Label` | app.py:121-127 | The label is Dense iff v > 0.6, Moderate iff 0.4 < v ≤ 0.6, Sparse iff 0.2 < v ≤ 0.4, and Built-up iff v ≤ 0.2. So every value gets exactly one of the four classes. |
| `Classifier.ThresholdValues` | app.py:121-127 | At exactly 0.6 the label is Moderate, at 0.4 it is Sparse, and at 0.2 it is Built-up. |
| `Classifier.StepAboveThreshold` | app.py:121-127 | A value above a threshold, by up to 0.2, is exactly one class higher than the threshold value itself. |
| `Classifier.LabelMonotone` | app.py:121-127 | If v ≤ w, then the class of v is not above the class of w in the order Built-up < Sparse < Moderate < Dense. |
| `Classifier.ClassifyRaster` | app.py:58-61 | All four masks are the size of the image. At every pixel, the mask of class c is set iff c is the point label of that pixel's value. This is the agreement between the raster form and the point form. |
| `Classifier.PixelMasksExactlyOne` | app.py:58-61 | At every pixel, one of `dense`, `moderate`, `sparse`, `nonveg` is set, and no two are set together. |
| `Classifier.RasterPartition` | app.py:58-61 | The pixel sets kept by the four self-masked layers are pairwise disjoint. Their union is exactly the image's pixels. |
| `SamplePoints.ClassNameInjective` | app.py:121-128 | The four label strings are distinct, so an exact string match on `"Class"` identifies one class. |
| `SamplePoints.ClassifyPoint` | app.py:117-131 | The result has the input's geometry. It keeps every property other than `"Class"` with its value, so NDVI is unchanged. It gains `"Class"`, set to the name of the label of its NDVI. |
| `SamplePoints.ClassifyPoints` | app.py:133 | Mapping `classify_point` keeps the point count and order. Each point keeps its location, its NDVI and its other properties, and gains the label of its own NDVI. |
| `SamplePoints.FilterClass` | app.py:136-146 | A filtered layer holds exactly the points of the collection whose `"Class"` equals the given string. It is never longer than the collection. Multiplicities are pinned down by `FilterMultiset`. |
| `SamplePoints.FilterMultiset` | app.py:136-146 | Each filtered layer holds every feature whose `"Class"` equals the given string exactly as often as the collection does, duplicates included, and holds no other feature. |
| `SamplePoints.FiltersPartition` | app.py:136-146 | For a collection whose points all carry one of the four labels, the four filters together hold each point exactly as often as the collection does. Their sizes add up to the collection's size. |
| `SamplePoints.PointLayers` | app.py:133-146 | After the map, each sampled point lies in the layer of its own NDVI class and in no other. The four layer sizes add up to the number of samples. |
| `SamplePoints.PointAgreesWithPixel` | app.py:117-131 | A sample whose NDVI equals a composite pixel's value gets the label whose raster mask (`app.py:58-61`) is set at that pixel, and only that one. |

## Left out

- Earth Engine initialisation, the Streamlit page, the markdown text and the map selector (`app.py:9`, `app.py:14-28`, `app.py:66-71`, `app.py:155-184`). These are process setup and UI.
- The Karnataka boundary lookup and the Sentinel-2 scene query with its bounds, date and cloud filters (`app.py:33-44`). These are remote catalogue queries. The region and the scenes are not modelled.
- The NDVI computation (`normalizedDifference`) and the temporal median composite with `clip` (`app.py:49-53`). These are library raster operations in floating point. The composite image is an input: a `seq<real>` of pixel values.
- `ndvi_image.sample(...)` (`app.py:109-114`). This is remote random sampling. The sampled features are an input sequence. Which pixels are drawn, how many, and which pixel a sample was drawn from are not modelled. `PointAgreesWithPixel` takes that pairing as a hypothesis.
- NaN values. The model covers finite NDVI values only. In the source every comparison on a NaN is false. So a NaN pixel is in none of the four raster masks (`app.py:58-61`), while a NaN point falls through the conditional to `"Built-up"` (`app.py:122-127`). `ClassifyRaster`, `PixelMasksExactlyOne`, `RasterPartition` and `PointAgreesWithPixel` hold in the source only for non-NaN values.
- No-data pixels and Earth Engine's implicit mask propagation. The repository does not code them. Every pixel of the modelled image has a value.
- `SamplePoints.ClassifyPoint` requires the feature to carry a numeric `"NDVI"` property. On a feature without one, the server-side `ee.Number(...).gt` call fails. That failure is not modelled. Features produced by `sample` always carry the property.
- The `geemap` maps, palettes, layer names, `selfMask` rendering and `to_streamlit` (`app.py:78-88`, `app.py:97-104`, `app.py:136-149`). These are presentation only. `RasterPartition` models only which pixels each self-masked layer keeps.
