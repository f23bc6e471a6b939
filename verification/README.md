# Radiograph geometry and feature-match scoring, in Dafny

This project models the two pure computations of the ct-rg-matcher tools.

- **Radiograph geometry** (`DicomGeometry`, `dicom_geometry.dfy`). This is `read_dicom` after its header
  lookups. It takes the source-to-detector distance, the imager pixel spacing
  `(row, column)`, the row and column counts, and the four shutter edges. From
  these it derives a `dicom_data` record:
  - sensor size in pixels and millimetres;
  - size in pixels and millimetres of the active image, whose edges are inclusive at both ends;
  - horizontal and vertical field of view, in radians and in degrees.

  Numbers are `real`. The arctangent is a function parameter `atan`. Lemmas
  about ranges assume only `ArctanLike(atan)`: on arguments in (0, `MaxTangent`],
  with `MaxTangent` = 10^15, its values lie in (0, `Pi`/2). The bound matters
  because `Pi` is a rational slightly below the real pi, so the true arctangent
  exceeds `Pi`/2 for arguments above about 8.4·10^15. The program itself
  leaves the open range there too: above about 5.8·10^15 numpy's double
  `arctan` returns the double nearest pi/2, so line 68 of `read_dicom` gives a
  field of view equal to `np.pi` and line 70 gives exactly 180.0 degrees. The tangent lemma assumes
  only that some `tan` undoes `atan`. `Pi` is 3.141592653589793, the shortest
  decimal that rounds to numpy's double `pi`; that double itself is
  3.141592653589793115997963….
- **Feature-match scoring** (`MatchResults`, `match_result.dfy`). This is `match_result_t`:
  - the match ratio, with a -1 sentinel when there are no reference descriptors;
  - the total distance, with a float-maximum sentinel when there are no matches;
  - the good-match filter under a distance threshold, and the ratio and distance of the good matches;
  - the two "smart" comparators.

  `cv::DMatch` is a datatype with a `real` distance. The reference definitions
  (`SumDistances`, `GoodMatches`) handle all but the last element and then the
  last, which is the left-to-right order of the C++ `+=` and `push_back` loops.
  The methods `ComputeDistance`, `CollectGoodMatches` and
  `ComputeGoodMatchesDistance` follow the C++ loops in `distance()`,
  `good_matches()` and `good_matches_distance()` and are proved equal to them.

`read_dicom` validates none of its inputs, and the model follows the code:
- `ReadDicom` fails only when the distance is zero. That is where Python's float
  division raises `ZeroDivisionError`.
- Negative distances and zero or negative spacings and counts pass through unchecked; a zero distance fails only through the division.
- Inverted edges are accepted and give an image size of zero or less (`InvertedEdgesAccepted`).
- The positivity and range results hold under the `PlausibleGeometry` predicate. It asks for a positive distance, positive spacings and counts, ordered edges, and an image no wider or taller than 2·`MaxTangent` times the distance, so that half the image over the distance stays within (0, `MaxTangent`].

## Model

| member | source | states |
|---|---|---|
| DicomGeometry.Derive | src/dicomreader/dicomreader.py:62-86 | sensor pixel fields are the column and row counts unchanged; image pixel sizes exceed the edge differences by one; each field of view is twice the arctangent of half the image size over the distance; the degree fields satisfy deg·pi = rad·180; each millimetre size is its pixel count times the spacing of its own axis (column spacing for widths, row spacing for heights) |
| DicomGeometry.ReadDicom | src/dicomreader/dicomreader.py:68-69 | the computation fails exactly when the source-to-detector distance is zero (the division by zero), and otherwise yields the derived record |
| DicomGeometry.RadToDeg | src/dicomreader/dicomreader.py:70-71 | the `rad / (2 pi) * 360` conversion is exact: deg·pi = rad·180 and deg·pi/180 gives back rad |
| DicomGeometry.InclusiveExtentCounts | src/dicomreader/dicomreader.py:64-65 | `hi - lo + 1` is exactly the number of integer coordinates from lo to hi, both included |
| DicomGeometry.ImageSizeCountsPixels | src/dicomreader/dicomreader.py:64-65 | image width and height in pixels equal the number of pixel columns and rows between the shutter edges, edges included |
| DicomGeometry.SingleEdgeGivesOnePixel | src/dicomreader/dicomreader.py:64-65 | equal left and right (upper and lower) edges give a size of 1, not 0 |
| DicomGeometry.InvertedEdgesAccepted | src/dicomreader/dicomreader.py:64-65 | inverted edges are not rejected; they give a pixel size of zero or less |
| DicomGeometry.SpacingPerAxis | src/dicomreader/dicomreader.py:62-67 | sensor and image use the same spacing per axis: mm per pixel is the column spacing (`value[1]`) horizontally and the row spacing (`value[0]`) vertically, for both |
| DicomGeometry.FovHalfAngleTangent | src/dicomreader/dicomreader.py:68-69 | the tangent of half of each field of view, times the distance, is half the image size in mm |
| DicomGeometry.FovDegreesRoundTrip | src/dicomreader/dicomreader.py:70-71 | converting the degree fields back gives exactly the radian fields |
| DicomGeometry.PlausibleGeometryRanges | src/dicomreader/dicomreader.py:62-71 | for positive distance and spacings, positive counts, ordered edges and an image at most 2·`MaxTangent` times the distance: every size is positive, each FOV is in (0, `Pi`) rad and (0, 180) degrees |
| DicomGeometry.UnusedTagsIgnored | src/dicomreader/dicomreader.py:49-71 | the source-to-patient and source-to-entrance distances and the positioner angles are read but do not affect the result |
| DicomGeometry.WorkedExample | src/dicomreader/dicomreader.py:62-71 | 800 rows × 1200 columns with spacing (row 0.15, column 0.2) mm, edges 100..899 and 50..649, at 1000 mm, gives a 1200×800 px and 240×120 mm sensor, an 800×600 px and 160×90 mm image, FOV 2·atan(0.08) and 2·atan(0.045); the unequal values tell the two axes apart |
| MatchResults.GoodMatches | src/match/match_result.h:59-68 | the filter never returns more matches than it was given |
| MatchResults.GoodMatchesMembers | src/match/match_result.h:59-68 | a match is in the good matches exactly when it is one of the matches and its distance is strictly below the threshold |
| MatchResults.GoodMatchesMultiplicity | src/match/match_result.h:59-68 | every match occurs in the result as often as in the input if it passes and never otherwise |
| MatchResults.GoodMatchesAppend | src/match/match_result.h:59-68 | filtering a concatenation concatenates the filtered parts, so the original order is preserved |
| MatchResults.GoodMatchesSingle | src/match/match_result.h:64-65 | a single match is kept exactly when its distance is below the threshold |
| MatchResults.GoodMatchesNested | src/match/match_result.h:59-68 | filtering at a lower threshold after a higher one equals filtering at the lower one (so the filter is idempotent) |
| MatchResults.GoodMatchesMonotone | src/match/match_result.h:59-68 | raising the threshold never keeps fewer matches |
| MatchResults.GoodMatchesKeepsAll | src/match/match_result.h:59-68 | the filter returns its input unchanged exactly when every match is below the threshold |
| MatchResults.GoodMatchesEmpty | src/match/match_result.h:59-68 | the filter returns nothing exactly when no match is below the threshold |
| MatchResults.CollectGoodMatches | src/match/match_result.h:59-68 | the C++ `push_back` loop in `good_matches()` builds exactly the reference filter |
| MatchResults.MatchRatio | src/match/match_result.h:40-45 | the ratio is -1 exactly when there are no reference descriptors; otherwise it is non-negative and times the descriptor count gives the number of matches |
| MatchResults.Distance | src/match/match_result.h:47-57 | the float maximum when there are no matches; with non-negative distances, no smaller than any single match distance |
| MatchResults.ComputeDistance | src/match/match_result.h:47-57 | the float maximum when there are no matches, otherwise the sum of all match distances |
| MatchResults.SumAppend | src/match/match_result.h:51-56 | the distance sum of a concatenation is the sum of the parts' sums |
| MatchResults.SumDistances | src/match/match_result.h:51-56 | non-negative distances sum to a non-negative total that is at least every single distance |
| MatchResults.GoodMatchesRatio | src/match/match_result.h:70-75 | -1 exactly when there are no reference descriptors; otherwise between 0 and the plain match ratio |
| MatchResults.GoodMatchesRatioCounts | src/match/match_result.h:70-75 | with descriptors, the good-match ratio times the descriptor count is the number of good matches |
| MatchResults.GoodMatchesRatioMonotone | src/match/match_result.h:70-75 | a higher threshold never lowers the good-match ratio |
| MatchResults.GoodMatchesDistance | src/match/match_result.h:77-85 | 0 when no match passes the threshold (no sentinel); with non-negative distances, between 0 and `distance()` |
| MatchResults.ComputeGoodMatchesDistance | src/match/match_result.h:77-85 | the C++ `+=` loop in `good_matches_distance()` over the good matches gives the sum of their distances |
| MatchResults.GoodMatchesSumBound | src/match/match_result.h:77-85 | with non-negative distances the good matches sum to at most the sum of all matches |
| MatchResults.GoodMatchesSumWithin | src/match/match_result.h:47-85 | with non-negative distances the good-match sum lies between 0 and `distance()`, sentinel case included |
| MatchResults.GoodMatchesAllPass | src/match/match_result.h:40-85 | when every match passes the threshold, the good-match ratio is the match ratio and (with matches) the good-match distance is the distance |
| MatchResults.Less | src/match/match_result.h:19-27 | `<` never holds unless the left ratio is strictly below the right one |
| MatchResults.LessTiers | src/match/match_result.h:19-27 | `<` holds when the ratio is below the other's by more than the offset; fails when the ratio is not lower (so `a < a` is false); otherwise compares good-match distances |
| MatchResults.LessStrictOrder | src/match/match_result.h:19-27 | `<` is irreflexive, asymmetric and transitive |
| MatchResults.LessIncomparabilityNotTransitive | src/match/match_result.h:19-27 | results with ratios 0, 0.003 and 0.006 and no good matches: each neighbour pair is incomparable but the outer pair is ordered, so `<` is not a strict weak order |
| MatchResults.GreaterAsWritten | src/match/match_result.h:30-38 | `>` as written holds exactly when the left ratio plus the offset exceeds the right ratio; its distance branch is never reached |
| MatchResults.GreaterAsWrittenReflexive | src/match/match_result.h:30-38 | `>` as written makes `a > a` true, and holds in both directions for ratios closer than the offset |
| MatchResults.Greater | src/match/match_result.h:30-38 | the corrected `>` never holds unless the left ratio is strictly above the right one |
| MatchResults.GreaterIsConverseOfLess | src/match/match_result.h:30-38 | the corrected `>` is exactly `<` with the operands swapped, hence irreflexive |

## Findings

| source | as written | input that shows it | evidently intended | confidence | as-written member | corrected member |
|---|---|---|---|---|---|---|
| src/match/match_result.h:32 | `match_ratio() + match_ratio_compare_offset > rhs.match_ratio()` | any result compared with itself: `a > a` is true; the distance comparison on lines 34-35 can never run | `match_ratio() > rhs.match_ratio() + match_ratio_compare_offset`, the mirror of `operator<`, as the shared comment describes | medium, not executed | MatchResults.GreaterAsWrittenReflexive | MatchResults.Greater |

`GreaterAsWritten` is the as-written comparator and `Greater` the corrected one; `GreaterIsConverseOfLess` proves that `Greater` is exactly `Less` with the operands swapped.

## Left out

- DICOM file reading (`pydicom.dcmread`) and the tag lookups of `read_dicom`: a foreign library. The twelve looked-up values are the typed `HeaderFields`, and a missing tag is not modelled.
- `main`, its default file path and the printing: I/O.
- `dicom_data.__str__` and `__repr__`: text formatting that depends on Python's float printing.
- src/match/match.cpp: the viewer, rendering, command-line parsing and volume loading. None of it reads `match_result_t`.
- Floating point throughout. Doubles and single-precision floats are reals, so there is no rounding, overflow or NaN. The order of accumulation in the distance loops therefore does not matter. The offset `0.005f` is the exact decimal 0.005.
- The real value of numpy's `arctan`. It is the parameter `atan`, constrained only by the hypotheses of the lemmas that need them.
- The `reference_keypoints` and `query_keypoints` vectors: no scoring reads them.
- The default argument of `good_matches`, `good_matches_ratio` and `good_matches_distance`. The model passes the threshold explicitly; the comparators pass `GoodMatchThreshold` (30), as the C++ default arguments do.
