# MassCascade core, modelled in Dafny

MassCascade is a Java library for processing liquid-chromatography mass-spectrometry data. A raw file
is read into scans, and each scan is a list of (m/z, intensity) points. Scans are cleaned, smoothed and
baseline-corrected, and cut into traces and profiles. Features are aligned into bins across samples,
annotated against reference spectra, and scored as compound candidates. Thermo raw files come in
through a C++ helper, `RAWdump`. It prints each scan as a line protocol, and `XCaliburReader` parses
that stream back.

This project models the sequential core of that library and proves properties of the model. Each
module follows one source file:

| module | file | models |
|---|---|---|
| `Wrappers`, `Numerics`, `Points`, `SortedSeqs`, `LinkedMaps`, `Strings` | shared | Option/Result, sums and Java casts, XY points, TreeMap floor and higher, LinkedHashMap |
| `Constants` | `parameters/Constants.java` | the MSn levels: getLvl, up, down, get |
| `Ranges` | `utilities/range/ExtendableRange.java` | an extendable range (a class) and its pure queries |
| `Traces` | `utilities/xyz/XYTrace.java`, `XYZTrace.java` | running-average traces (classes) |
| `DataUtils` | `utilities/DataUtils.java` | closest-key lookups |
| `XYList` | `utilities/xyz/XYList.java` | the xy list's extraction loops |
| `Scans` | `core/raw/ScanImpl.java` | the minimal scan constructor, getMinIntensity, getNearestPoint, compareTo |
| `ScanUtils` | `utilities/ScanUtils.java` | isCentroided, point cleaning, the little-endian long-pair codec, getModifiedScan |
| `TextUtils` | `utilities/TextUtils.java` | reading lines and numbers from a byte stream |
| `RawDump` | `thermo/RAWdump.cpp` | the records printed per scan, with vendor results as inputs |
| `XCalibur` | `io/XCaliburReader.java` | the line-protocol parser (a class with per-scan fields) |
| `RawContainers` | `core/container/memory/raw/MemoryRawContainer.java` | raw levels, scans, TIC/BPC and the MSn parent map |
| `Baseline` | `background/BaselineSubtraction.java` | van Herk-Gil-Werman erosion and dilation, the top-hat |
| `Biehman` | `deconvolution/BiehmanWindow.java` | the peak window boundaries |
| `Splitter` | `tracebuilder/ProfileSplitter.java` | zero-boundary segmentation of traces |
| `Smoothing` | `smoothing/RunningMedianSmoothing.java` | the running-median window |
| `MathUtils` | `utilities/math/MathUtils.java` | tolerance ranges, median, rounding, closeness, trapezoid area |
| `Matrices`, `LinearSolving` | `utilities/math/Matrix.java`, `LinearSolver.java` | row operations in place, and Gauss and Gauss-Jordan elimination |
| `ChartUtils` | `utilities/ChartUtils.java` | binValues without interpolation |
| `ParameterMaps` | `parameters/ParameterMap.java` | put, get, containsKey, clone |
| `MsnHelpers` | `tracebuilder/ProfileMsnHelper.java` | MSn maps and the recursive child search |
| `FeatureBins` | `alignment/featurebins/FeatureBin.java` | running means and group counts of an aligned row |
| `ReferenceSpectra`, `ReferenceContainers` | MassCascadeReference `ReferenceSpectrum.java`, `ReferenceContainer.java` | peak matching; the tree map of library spectra |
| `LazyLists` | MassCascadeVisualisation `SimpleLazyList.java` | the page cache over a lazy list service |
| `Compounds`, `Judges` | MassCascadeChem `CompoundSpectrum.java`, `CompoundEntity.java`, `IdentityRelationJudge.java` | getBest and the identity-relation judge |

Doubles are modelled as `real`. Java's integer casts and divisions are written out where the source
relies on them. Objects whose fields the source updates in place are `class`es with `modifies`
frames. Arrays the source fills in place are `array`s, except the `double[][]` of Matrix, which is
held as a sequence of row sequences (see "## Left out"). Lists and maps that the source mutates are
`seq` and `map` fields. Pure code is modelled as functions and lemmas. Each loop is a method proved against
a specification function, and the properties are proved about those functions. A path that ends in an
exception in the source is modelled as a `Failure` result, an `Option`, or a `false` success flag.
Preconditions say what the source itself assumes. The corrected definitions listed under
"## Findings" are stated on the domain where the intended result exists; the as-written members
beside them model the source's exception paths as failures.

## Model

| member | source | states |
|---|---|---|
| Constants.Lvl | MassCascadeCore/src/main/java/uk/ac/ebi/masscascade/parameters/Constants.java:54-64 | each constant carries its level 1..5, and only MSn has level 5 |
| Constants.ValueOf | MassCascadeCore/src/main/java/uk/ac/ebi/masscascade/parameters/Constants.java:53-54 | valueOf returns the constant of exactly that name, and none when no constant has it |
| Constants.GetLevels | MassCascadeCore/src/main/java/uk/ac/ebi/masscascade/parameters/Constants.java:74-76 | get(v) names a constant exactly for v in 1..4 (the fifth is called MSn), and that constant has level v |
| Constants.GetOfLvl | MassCascadeCore/src/main/java/uk/ac/ebi/masscascade/parameters/Constants.java:54-76 | get of a constant's level gives the constant back for MS1..MS4 and nothing for MSn |
| Constants.GetByText | MassCascadeCore/src/main/java/uk/ac/ebi/masscascade/parameters/Constants.java:78-80 | get(String) finds a constant exactly for "1" to "4" and "n", and the constant found is the one named "MS" followed by the text |
| Constants.Up | MassCascadeCore/src/main/java/uk/ac/ebi/masscascade/parameters/Constants.java:66-68 | up(MS1) is MS1; any other level goes one level up |
| Constants.DownAsWritten | MassCascadeCore/src/main/java/uk/ac/ebi/masscascade/parameters/Constants.java:70-72 | down as written fails exactly for MS4 (there is no "MS5"), keeps MSn, and otherwise goes one level down |
| Constants.DownAsWrittenFailsOnMS4 | MassCascadeCore/src/main/java/uk/ac/ebi/masscascade/parameters/Constants.java:70-75 | MS4.down() finds no constant |
| Constants.Down | MassCascadeCore/src/main/java/uk/ac/ebi/masscascade/parameters/Constants.java:70-72 | the corrected down keeps MSn, goes one level down otherwise, and agrees with the source wherever the source returns |
| Constants.UpDown | MassCascadeCore/src/main/java/uk/ac/ebi/masscascade/parameters/Constants.java:66-72 | up undoes down below MSn, and down undoes up above MS1 |
| Points.PointRangeCentred | MassCascadeCore/src/main/java/uk/ac/ebi/masscascade/utilities/xyz/XYPoint.java:68-74 | the tolerance range of a point is centred on its x, is 2·x·ppm/10^6 wide, and contains x for positive x and ppm |
| Ranges.PointRangeIsEmpty | MassCascadeCore/src/main/java/uk/ac/ebi/masscascade/utilities/range/ExtendableRange.java:51-128 | the one-argument range [limit, limit] contains no value, has size 0 and mean limit |
| Ranges.ExtendWithBounds | MassCascadeCore/src/main/java/uk/ac/ebi/masscascade/utilities/range/ExtendableRange.java:101-105 | extendRange(v) gives lower = min(lower, v) and upper = max(upper, v), so v lies inside, nothing contained is lost and the size never shrinks |
| Ranges.ExtendWithIsHullOfPoint | MassCascadeCore/src/main/java/uk/ac/ebi/masscascade/utilities/range/ExtendableRange.java:101-116 | extending by a value is extending by that value's point range |
| Ranges.HullIsLeast | MassCascadeCore/src/main/java/uk/ac/ebi/masscascade/utilities/range/ExtendableRange.java:112-116 | extendRange(range) contains both ranges and is the least interval reaching both sets of bounds |
| Ranges.HullIdempotent | MassCascadeCore/src/main/java/uk/ac/ebi/masscascade/utilities/range/ExtendableRange.java:112-116 | extending twice by the same range is extending once, and a range extended by itself is unchanged |
| Ranges.ClosestIsNearerTheMean | MassCascadeCore/src/main/java/uk/ac/ebi/masscascade/utilities/range/ExtendableRange.java:137-151 | getClosest returns one of its two values, the one no farther from the mean, and value1 on a tie |
| Ranges.CompareByLowerOnly | MassCascadeCore/src/main/java/uk/ac/ebi/masscascade/utilities/range/ExtendableRange.java:154-157 | compareTo is antisymmetric, ignores the upper bound, is 0 exactly for equal lower bounds and negative exactly for a smaller one |
| Ranges.CompareCoarserThanEquals | MassCascadeCore/src/main/java/uk/ac/ebi/masscascade/utilities/range/ExtendableRange.java:154-169 | two ranges with the same lower bound compare as 0 although equals tells them apart |
| Ranges.ExtendableRange.constructor | MassCascadeCore/src/main/java/uk/ac/ebi/masscascade/utilities/range/ExtendableRange.java:40-44 | the default range is [0, 0] |
| Ranges.ExtendableRange.FromLimit | MassCascadeCore/src/main/java/uk/ac/ebi/masscascade/utilities/range/ExtendableRange.java:51-55 | the one-argument range is [limit, limit] |
| Ranges.ExtendableRange.FromBounds | MassCascadeCore/src/main/java/uk/ac/ebi/masscascade/utilities/range/ExtendableRange.java:63-67 | the two-argument range stores the bounds as given |
| Ranges.ExtendableRange.ExtendRange | MassCascadeCore/src/main/java/uk/ac/ebi/masscascade/utilities/range/ExtendableRange.java:101-105 | the bounds become the extension of the old bounds by the value |
| Ranges.ExtendableRange.ExtendRangeBy | MassCascadeCore/src/main/java/uk/ac/ebi/masscascade/utilities/range/ExtendableRange.java:112-116 | the bounds become the hull of the old bounds and the other range |
| Traces.CompareAnchors | MassCascadeCore/src/main/java/uk/ac/ebi/masscascade/utilities/xyz/XYTrace.java:130-143 | the trace comparison is 0 exactly for equal anchors and negative exactly when the first anchor is smaller |
| Traces.XYTrace.constructor | MassCascadeCore/src/main/java/uk/ac/ebi/masscascade/utilities/xyz/XYTrace.java:51-60 | a new trace holds the anchor point alone, with anchor = x, n = 1 and avg = x |
| Traces.XYTrace.Add | MassCascadeCore/src/main/java/uk/ac/ebi/masscascade/utilities/xyz/XYTrace.java:67-72 | add appends the pair, n grows by one, and avg stays the mean of the x values of all pairs; the anchor is a constant |
| Traces.XYTrace.CompareTo | MassCascadeCore/src/main/java/uk/ac/ebi/masscascade/utilities/xyz/XYTrace.java:119-143 | compareTo and equals are decided by the anchors alone |
| Traces.XYZTrace.constructor | MassCascadeCore/src/main/java/uk/ac/ebi/masscascade/utilities/xyz/XYZTrace.java:45-54 | the seed trace holds (rt, x, y) of the anchor, with n = 1 and avg = x |
| Traces.XYZTrace.FromList | MassCascadeCore/src/main/java/uk/ac/ebi/masscascade/utilities/xyz/XYZTrace.java:62-68 | the list constructor keeps the list and the given average, with n = the list's size |
| Traces.XYZTrace.Add | MassCascadeCore/src/main/java/uk/ac/ebi/masscascade/utilities/xyz/XYZTrace.java:75-80 | add appends the triple, n grows by one and avg stays the mean of the m/z (y) values the statistics hold |
| Traces.XYZTrace.Push | MassCascadeCore/src/main/java/uk/ac/ebi/masscascade/utilities/xyz/XYZTrace.java:82-91 | push prepends the triple and leaves n and avg as they were |
| Traces.XYZTrace.CompareTo | MassCascadeCore/src/main/java/uk/ac/ebi/masscascade/utilities/xyz/XYZTrace.java:147-171 | ordering and equality are by anchor only |
| Traces.RunningMeanStep | MassCascadeCore/src/main/java/uk/ac/ebi/masscascade/utilities/xyz/XYZTrace.java:78 | the update (avg·n + y)/(n + 1) is the new total over the new count |
| Traces.CopiesSum | MassCascadeCore/src/main/java/uk/ac/ebi/masscascade/utilities/xyz/XYZTrace.java:62-68 | the statistics a list trace stands for, n copies of its average, sum to avg·n |
| Traces.ValidAvgIsMean | MassCascadeCore/src/main/java/uk/ac/ebi/masscascade/utilities/xyz/XYZTrace.java:75-80 | a trace whose average times its count is the total has the mean as average |
| DataUtils.ChooseCloser | MassCascadeCore/src/main/java/uk/ac/ebi/masscascade/utilities/DataUtils.java:114-122 | no candidate gives null; a single candidate is returned; of two the floor wins unless the higher one is strictly nearer |
| DataUtils.ClosestKey | MassCascadeCore/src/main/java/uk/ac/ebi/masscascade/utilities/DataUtils.java:85-94 | the numeric getClosestKey is null exactly for an empty map and otherwise returns one of the map's keys |
| DataUtils.ClosestValue | MassCascadeCore/src/main/java/uk/ac/ebi/masscascade/utilities/DataUtils.java:102-112 | the numeric getClosestValue is null exactly for an empty set and otherwise returns one of the set's values |
| DataUtils.ClosestTrace | MassCascadeCore/src/main/java/uk/ac/ebi/masscascade/utilities/DataUtils.java:40-75 | a trace returned by getClosestKey or getClosestValue is one of the collection's traces |
| DataUtils.ClosestKeyIsNearest | MassCascadeCore/src/main/java/uk/ac/ebi/masscascade/utilities/DataUtils.java:85-122 | the numeric getClosestKey is null exactly for an empty map, returns a key of the map that no other key is nearer to, and the query itself when present |
| DataUtils.ClosestValueIsClosestKey | MassCascadeCore/src/main/java/uk/ac/ebi/masscascade/utilities/DataUtils.java:102-112 | on a set, the early return of a present value gives the same answer as the floor/higher choice |
| DataUtils.ClosestTraceIsNeighbour | MassCascadeCore/src/main/java/uk/ac/ebi/masscascade/utilities/DataUtils.java:40-75 | the trace lookup is null exactly for an empty collection, returns the floor or higher trace by anchor, and the higher one only when the floor's average is farther by the signed distances anchor − avg and avg − anchor |
| XYList.GetFirst | MassCascadeCore/src/main/java/uk/ac/ebi/masscascade/utilities/xyz/XYList.java:56-58 | getFirst is element 0, and fails exactly on an empty list |
| XYList.GetLast | MassCascadeCore/src/main/java/uk/ac/ebi/masscascade/utilities/xyz/XYList.java:65-67 | getLast is element size − 1, and fails exactly on an empty list |
| XYList.GetXs | MassCascadeCore/src/main/java/uk/ac/ebi/masscascade/utilities/xyz/XYList.java:74-81 | getXs returns a new array of size() entries holding the x values element by element |
| XYList.GetYs | MassCascadeCore/src/main/java/uk/ac/ebi/masscascade/utilities/xyz/XYList.java:88-95 | getYs returns a new array of size() entries holding the y values element by element |
| XYList.GetXsIndices | MassCascadeCore/src/main/java/uk/ac/ebi/masscascade/utilities/xyz/XYList.java:105-123 | the loop with its early break collects the indices of the recursive definition IndicesFrom |
| XYList.IndicesFromSound | MassCascadeCore/src/main/java/uk/ac/ebi/masscascade/utilities/xyz/XYList.java:105-123 | every collected index is in bounds and its x lies in the range, and the indices strictly increase |
| XYList.IndicesStopAtFirstAbove | MassCascadeCore/src/main/java/uk/ac/ebi/masscascade/utilities/xyz/XYList.java:111-118 | no index at or after the first point that is neither below nor inside the range is collected |
| XYList.IndicesFromComplete | MassCascadeCore/src/main/java/uk/ac/ebi/masscascade/utilities/xyz/XYList.java:105-123 | on a list in increasing x order an index is collected exactly when its x lies in the half-open range |
| Scans.BaseSearch | MassCascadeCore/src/main/java/uk/ac/ebi/masscascade/core/raw/ScanImpl.java:134-143 | the search state after a prefix names a position of that prefix (0 for an empty one) |
| Scans.BaseSearchIsFirstMaximum | MassCascadeCore/src/main/java/uk/ac/ebi/masscascade/core/raw/ScanImpl.java:134-148 | the base peak is the first point of maximal positive intensity, or index 0 when none is positive, and its reported intensity bounds every intensity |
| Scans.MinimalScan | MassCascadeCore/src/main/java/uk/ac/ebi/masscascade/core/raw/ScanImpl.java:114-151 | the minimal constructor keeps every given field; an empty list gives range [0, 0], TIC 0 and no base peak; otherwise the range is [first x, last x], the TIC is the sum of the intensities and the base peak is the point BaseSearch finds |
| Scans.GetMinIntensity | MassCascadeCore/src/main/java/uk/ac/ebi/masscascade/core/raw/ScanImpl.java:266-276 | the least nonzero intensity, or Double.MAX_VALUE when every intensity is 0: the result bounds every nonzero intensity and is one of them unless it is Double.MAX_VALUE |
| Scans.CompareScans | MassCascadeCore/src/main/java/uk/ac/ebi/masscascade/core/raw/ScanImpl.java:345-354 | compareTo is 0, negative or positive exactly as the retention times are equal, smaller or greater |
| Scans.ChoiceAsWritten | MassCascadeCore/src/main/java/uk/ac/ebi/masscascade/core/raw/ScanImpl.java:303-311 | the neighbour choice, as written, reads a point of the list or fails (the read at index −1) |
| Scans.BinarySearch | MassCascadeCore/src/main/java/uk/ac/ebi/masscascade/core/raw/ScanImpl.java:287-301 | the binary search returns an index holding mz, or reports that no point has mz and stops at the insertion point |
| Scans.GetNearestPoint | MassCascadeCore/src/main/java/uk/ac/ebi/masscascade/core/raw/ScanImpl.java:285-317 | getNearestPoint computes NearestPointAsWritten: the exact match, else the written neighbour choice kept only inside the tolerance range |
| Scans.NearestPointExactMatch | MassCascadeCore/src/main/java/uk/ac/ebi/masscascade/core/raw/ScanImpl.java:294-301 | a point with exactly the queried m/z is returned whatever the tolerance |
| Scans.NearestPointAsWritten | MassCascadeCore/src/main/java/uk/ac/ebi/masscascade/core/raw/ScanImpl.java:285-317 | getNearestPoint as written fails on an empty scan, and a point it returns is a point of the scan that has the queried m/z or lies in the tolerance range |
| Scans.ChoiceAsWrittenIsLowerNeighbour | MassCascadeCore/src/main/java/uk/ac/ebi/masscascade/core/raw/ScanImpl.java:303-311 | without an exact match the written choice is always the lower neighbour, because it compares a positive difference with a negative one |
| Scans.NearestPointAsWrittenCounterexamples | MassCascadeCore/src/main/java/uk/ac/ebi/masscascade/core/raw/ScanImpl.java:303-316 | for points at 1, 2, 3 and m/z 2.9 the point at 2 is returned, and a one-point scan queried below its point fails |
| Scans.NearestPoint | MassCascadeCore/src/main/java/uk/ac/ebi/masscascade/core/raw/ScanImpl.java:285-317 | the corrected getNearestPoint returns a point of the scan inside the tolerance range, the one NearestIndex picks |
| Scans.NearestIndex | MassCascadeCore/src/main/java/uk/ac/ebi/masscascade/core/raw/ScanImpl.java:303-311 | the corrected choice names a position of the list |
| Scans.NearestIndexIsNearest | MassCascadeCore/src/main/java/uk/ac/ebi/masscascade/core/raw/ScanImpl.java:285-317 | the corrected choice exists for every non-empty scan, no point is nearer to mz, and an exact match is chosen |
| ScanUtils.ExtentIsMinMax | MassCascadeCore/src/main/java/uk/ac/ebi/masscascade/utilities/ScanUtils.java:87-92 | the range built from the first x and every point holds every x, and its bounds are x values of the list |
| ScanUtils.IsCentroided | MassCascadeCore/src/main/java/uk/ac/ebi/masscascade/utilities/ScanUtils.java:78-108 | isCentroided is true exactly for at most 10 points, for no zero intensity, or when a nonzero point lies more than 1.5 mean mass steps from its predecessor |
| ScanUtils.RemoveZeroAndDuplicateDataPoints | MassCascadeCore/src/main/java/uk/ac/ebi/masscascade/utilities/ScanUtils.java:117-163 | the two loops compute CleanedAsWritten: the input when it is already clean or nothing was dropped, the rebuilt list otherwise |
| ScanUtils.CleanedAsWritten | MassCascadeCore/src/main/java/uk/ac/ebi/masscascade/utilities/ScanUtils.java:117-163 | removeZeroAndDuplicateDataPoints returns its input unchanged or a strictly shorter list |
| ScanUtils.Cleaned | MassCascadeCore/src/main/java/uk/ac/ebi/masscascade/utilities/ScanUtils.java:117-163 | the corrected cleaning returns its input unchanged or a strictly shorter list of input points |
| ScanUtils.RebuildKeepsInputPoints | MassCascadeCore/src/main/java/uk/ac/ebi/masscascade/utilities/ScanUtils.java:133-158 | each rebuilt point is a surviving input point, and the rebuild as written has the same length as the corrected one |
| ScanUtils.RebuildHoldsSurvivors | MassCascadeCore/src/main/java/uk/ac/ebi/masscascade/utilities/ScanUtils.java:133-158 | every surviving point among the first n is in the rebuilt list |
| ScanUtils.SurvivorIndices | MassCascadeCore/src/main/java/uk/ac/ebi/masscascade/utilities/ScanUtils.java:133-158 | the indices the rebuild keeps are below n, strictly increasing, and are exactly the surviving ones |
| ScanUtils.RebuildPicksSurvivors | MassCascadeCore/src/main/java/uk/ac/ebi/masscascade/utilities/ScanUtils.java:133-158 | the rebuilt list is the in-order subsequence of the surviving points: its k-th point is the input point at the k-th surviving index |
| ScanUtils.CleanedKeepsSurvivors | MassCascadeCore/src/main/java/uk/ac/ebi/masscascade/utilities/ScanUtils.java:117-163 | the corrected cleaning returns a clean input whole, and otherwise exactly the surviving points in input order, so every surviving point is kept with its intensity |
| ScanUtils.CleanedKeepsIntensities | MassCascadeCore/src/main/java/uk/ac/ebi/masscascade/utilities/ScanUtils.java:119-163 | the corrected cleaning keeps only input points, drops every zero point in CENTROID mode, returns a clean input unchanged (as the source does) and has the source's length |
| ScanUtils.RebuildDropsNonSurvivor | MassCascadeCore/src/main/java/uk/ac/ebi/masscascade/utilities/ScanUtils.java:137-158 | one dropped point makes the rebuilt list shorter than the input |
| ScanUtils.ZeroBesidePeakSurvives | MassCascadeCore/src/main/java/uk/ac/ebi/masscascade/utilities/ScanUtils.java:148-157 | a zero point next to a positive neighbour survives and is in the cleaned list in profile mode, and is dropped in CENTROID mode |
| ScanUtils.CleanedAsWrittenReplacesIntensity | MassCascadeCore/src/main/java/uk/ac/ebi/masscascade/utilities/ScanUtils.java:143-146 | as written, [(1, 0), (2, 5)] in CENTROID mode comes back as [(2, 2)]; the corrected cleaning gives [(2, 5)] |
| ScanUtils.LowBytesValue | MassCascadeCore/src/main/java/uk/ac/ebi/masscascade/utilities/ScanUtils.java:270-273 | writing the low bytes of a value and reading them back little-endian gives the value |
| ScanUtils.LittleEndianValueBound | MassCascadeCore/src/main/java/uk/ac/ebi/masscascade/utilities/ScanUtils.java:341-343 | k bytes read little-endian give a value below 256^k |
| ScanUtils.LongToBytes | MassCascadeCore/src/main/java/uk/ac/ebi/masscascade/utilities/ScanUtils.java:273 | putLong writes 8 bytes |
| ScanUtils.BytesToLong | MassCascadeCore/src/main/java/uk/ac/ebi/masscascade/utilities/ScanUtils.java:342-343 | getLong reads a value in the long range |
| ScanUtils.LongRoundTrip | MassCascadeCore/src/main/java/uk/ac/ebi/masscascade/utilities/ScanUtils.java:270-343 | getLong reads back what putLong wrote, for every long |
| ScanUtils.EncodeLongs | MassCascadeCore/src/main/java/uk/ac/ebi/masscascade/utilities/ScanUtils.java:270-275 | the buffer holds 8 bytes per long |
| ScanUtils.Set64BitLongArrayAsBinaryData | MassCascadeCore/src/main/java/uk/ac/ebi/masscascade/utilities/ScanUtils.java:267-286 | the buffer is the little-endian encoding of the values, the returned length is 8·n, and each 8-byte slot decodes to its value |
| ScanUtils.EncodeLongsAt | MassCascadeCore/src/main/java/uk/ac/ebi/masscascade/utilities/ScanUtils.java:270-275 | slot k of the buffer holds the encoding of value k |
| ScanUtils.LongToInt | MassCascadeCore/src/main/java/uk/ac/ebi/masscascade/utilities/ScanUtils.java:342 | the (int) cast keeps the low 32 bits and leaves an int-range value unchanged |
| ScanUtils.Records | MassCascadeCore/src/main/java/uk/ac/ebi/masscascade/utilities/ScanUtils.java:341-345 | a buffer of 16-byte records holds length/16 (index, pointer) records |
| ScanUtils.Get64BitLongArrayFromBinaryData | MassCascadeCore/src/main/java/uk/ac/ebi/masscascade/utilities/ScanUtils.java:326-347 | the decoding loop computes DecodeLongPairs: each record put into the insertion-ordered map, and a length that is not a multiple of 16 fails past the end |
| ScanUtils.PartialRecord | MassCascadeCore/src/main/java/uk/ac/ebi/masscascade/utilities/ScanUtils.java:341-343 | a record read that runs past the end happens only for a length that is not a multiple of 16 |
| ScanUtils.RecordsStep | MassCascadeCore/src/main/java/uk/ac/ebi/masscascade/utilities/ScanUtils.java:341-345 | one more 16-byte record adds that record to the decoded ones |
| ScanUtils.PutAllSnoc | MassCascadeCore/src/main/java/uk/ac/ebi/masscascade/utilities/ScanUtils.java:344 | putting one more record is one more map put |
| ScanUtils.Interleave | MassCascadeCore/src/main/java/uk/ac/ebi/masscascade/utilities/ScanUtils.java:267-275 | the flat long array holds two longs per pair |
| ScanUtils.LongPairsRoundTrip | MassCascadeCore/src/main/java/uk/ac/ebi/masscascade/utilities/ScanUtils.java:267-347 | distinct int-range indices with long pointers, encoded and decoded, come back as the same map in the same order |
| ScanUtils.RecordsOfEncoding | MassCascadeCore/src/main/java/uk/ac/ebi/masscascade/utilities/ScanUtils.java:267-345 | the records of an encoded pair list are the pairs |
| ScanUtils.EncodeLongsSnocPair | MassCascadeCore/src/main/java/uk/ac/ebi/masscascade/utilities/ScanUtils.java:272-274 | the encoding of a list is that of all but its last two longs followed by their two 8-byte encodings |
| ScanUtils.RecordsSnoc | MassCascadeCore/src/main/java/uk/ac/ebi/masscascade/utilities/ScanUtils.java:341-345 | a buffer with one more record decodes to one more record |
| ScanUtils.PutAllDistinct | MassCascadeCore/src/main/java/uk/ac/ebi/masscascade/utilities/ScanUtils.java:338-345 | records with distinct indices fill the map in order, with nothing replaced |
| ScanUtils.PutAllAppendsFresh | MassCascadeCore/src/main/java/uk/ac/ebi/masscascade/utilities/ScanUtils.java:344 | putting fresh keys appends them |
| ScanUtils.GetModifiedScan | MassCascadeCore/src/main/java/uk/ac/ebi/masscascade/utilities/ScanUtils.java:356-360 | the copy keeps the template's index, level, ion mode, retention time and parent fields, holds the new points and derives TIC, m/z range and base peak from them (the point of the base-peak search); an empty list gives range [0, 0], TIC 0 and no base peak |
| TextUtils.LineEnd | MassCascadeCore/src/main/java/uk/ac/ebi/masscascade/utilities/TextUtils.java:55-60 | the line ends at the first newline at or after the start, or at the end of the data |
| TextUtils.TokenEnd | MassCascadeCore/src/main/java/uk/ac/ebi/masscascade/utilities/TextUtils.java:77-82 | the token ends at the first whitespace byte at or after the start, or at the end of the data |
| TextUtils.CopyOf | MassCascadeCore/src/main/java/uk/ac/ebi/masscascade/utilities/TextUtils.java:59-63 | Arrays.copyOf gives a new array of the new length that starts with the bytes collected so far |
| TextUtils.ReadLineFromStream | MassCascadeCore/src/main/java/uk/ac/ebi/masscascade/utilities/TextUtils.java:51-64 | the line is every byte up to the next newline or the end, without the newline, which is consumed; the buffer doubling loses no byte; null exactly when no byte was collected, so a blank line also gives null |
| TextUtils.LineEndIsFirstStop | MassCascadeCore/src/main/java/uk/ac/ebi/masscascade/utilities/TextUtils.java:55-60 | where the read loop stops is the line end |
| TextUtils.ReadNumberFromStream | MassCascadeCore/src/main/java/uk/ac/ebi/masscascade/utilities/TextUtils.java:73-86 | the token is every byte up to the next whitespace or the end, the whitespace consumed; null for an empty token |
| TextUtils.TokenEndIsFirstStop | MassCascadeCore/src/main/java/uk/ac/ebi/masscascade/utilities/TextUtils.java:77-82 | where the read loop stops is the token end |
| TextUtils.Close | MassCascadeCore/src/main/java/uk/ac/ebi/masscascade/utilities/TextUtils.java:93-101 | close(null) changes nothing; any other closeable is closed |
| RawDump.RawDumpMain | MassCascadeCore/src/main/resources/uk/ac/ebi/masscascade/thermo/RAWdump.cpp:48-275 | main writes exactly the records of Dump and returns its exit code: each failed set-up step one ERROR line and exit 1, then the header, the scans, and exit 0 unless a filter line is missing or closing fails |
| RawDump.WriteScans | MassCascadeCore/src/main/resources/uk/ac/ebi/masscascade/thermo/RAWdump.cpp:127-267 | the scan loop writes the records of ScansFrom for scans first..last and stops after the error line of the first scan without a filter line |
| RawDump.ScansFromStep | MassCascadeCore/src/main/resources/uk/ac/ebi/masscascade/thermo/RAWdump.cpp:129-140 | a scan without a filter line ends the output with its error; a scan with one writes its records before those of the later scans |
| RawDump.WriteScan | MassCascadeCore/src/main/resources/uk/ac/ebi/masscascade/thermo/RAWdump.cpp:137-248 | one scan writes SCAN NUMBER, SCAN FILTER, CREATION DATE, RETENTION TIME, TOTAL ION CURRENT, BASE PEAK MZ, BASE PEAK INT, the PRECURSOR line when the filter lacks "ms ", DATA POINTS and the raw peaks |
| RawDump.NumbersFrom | MassCascadeCore/src/main/resources/uk/ac/ebi/masscascade/thermo/RAWdump.cpp:127 | the scan numbers first..last, counted last − first + 1 |
| RawDump.ScansVisitedInOrder | MassCascadeCore/src/main/resources/uk/ac/ebi/masscascade/thermo/RAWdump.cpp:127-139 | a run in which every filter is present visits scans first..last once each, in increasing order |
| RawDump.ScanNumbersAppend | MassCascadeCore/src/main/resources/uk/ac/ebi/masscascade/thermo/RAWdump.cpp:139 | the scan numbers of two stretches of output are those of the first followed by those of the second |
| RawDump.NumbersCons | MassCascadeCore/src/main/resources/uk/ac/ebi/masscascade/thermo/RAWdump.cpp:127-139 | one scan's number followed by the later scans' numbers is the whole run of numbers |
| RawDump.ScanRecordsHaveOneNumber | MassCascadeCore/src/main/resources/uk/ac/ebi/masscascade/thermo/RAWdump.cpp:139-248 | the records of one scan carry exactly one SCAN NUMBER, its own |
| RawDump.NoScanNumbers | MassCascadeCore/src/main/resources/uk/ac/ebi/masscascade/thermo/RAWdump.cpp:106-121 | records other than SCAN NUMBER contribute no scan number |
| RawDump.PrecursorIffNoMsMarker | MassCascadeCore/src/main/resources/uk/ac/ebi/masscascade/thermo/RAWdump.cpp:182-206 | a scan writes a PRECURSOR line iff its filter lacks "ms ", with m/z an R4 widened, an R8 copied, 0 for any other tag, and the charge only from an I2, 0 otherwise |
| RawDump.DataFollowsCount | MassCascadeCore/src/main/resources/uk/ac/ebi/masscascade/thermo/RAWdump.cpp:245-248 | DATA POINTS: N is followed by exactly 16·N raw bytes |
| RawDump.DumpRejectsArguments | MassCascadeCore/src/main/resources/uk/ac/ebi/masscascade/thermo/RAWdump.cpp:55-58 | an argument count other than one writes a single ERROR line and exits 1 before any vendor call |
| RawDump.DumpRejectsUnreadable | MassCascadeCore/src/main/resources/uk/ac/ebi/masscascade/thermo/RAWdump.cpp:80-84 | an unreadable file writes only "ERROR: Unable to read file <path>" and exits 1 before Open is called |
| RawDump.MissingFilterAborts | MassCascadeCore/src/main/resources/uk/ac/ebi/masscascade/thermo/RAWdump.cpp:132-135 | a scan without a filter line stops the loop unfinished |
| RawDump.DumpAbortsWithoutFilter | MassCascadeCore/src/main/resources/uk/ac/ebi/masscascade/thermo/RAWdump.cpp:132-135 | once the file is open, a missing filter line makes the run exit 1 with its ERROR line last |
| RawDump.AbortEndsWithError | MassCascadeCore/src/main/resources/uk/ac/ebi/masscascade/thermo/RAWdump.cpp:132-135 | an unfinished scan loop ends with its error line |
| RawDump.DumpSucceeds | MassCascadeCore/src/main/resources/uk/ac/ebi/masscascade/thermo/RAWdump.cpp:119-127 | a successful run writes NUMBER OF SCANS = last − first + 1 and one SCAN NUMBER per scan, first..last in order |
| XCalibur.Reset | MassCascadeCore/src/main/java/uk/ac/ebi/masscascade/io/XCaliburReader.java:234-243 | after a scan the per-scan fields go back to their initial values (scan 0, MS1, parent scan −1); the ion mode and the last MS1 scan number carry over |
| XCalibur.DigitsEndIsRunEnd | MassCascadeCore/src/main/java/uk/ac/ebi/masscascade/io/XCaliburReader.java:180 | the \d+ of the pattern ends at the first non-digit |
| XCalibur.DecimalEndMatches | MassCascadeCore/src/main/java/uk/ac/ebi/masscascade/io/XCaliburReader.java:180 | a match of " (\d+\.\d+)@" is a space, digits, a dot, digits and an '@' |
| XCalibur.LastDecimalIsLast | MassCascadeCore/src/main/java/uk/ac/ebi/masscascade/io/XCaliburReader.java:180 | the greedy .* makes group 2 the last decimal part of the line |
| XCalibur.FirstMsDigitIsFirst | MassCascadeCore/src/main/java/uk/ac/ebi/masscascade/io/XCaliburReader.java:180-182 | find starts the match at the first "ms" and digit that leaves room for the rest |
| XCalibur.FilterMatchSpec | MassCascadeCore/src/main/java/uk/ac/ebi/masscascade/io/XCaliburReader.java:180-191 | the pattern matches exactly when an "ms" and digit is followed by a decimal part; group 1 is such a digit and group 2 a decimal |
| XCalibur.ReadPeaks | MassCascadeCore/src/main/java/uk/ac/ebi/masscascade/io/XCaliburReader.java:204-213 | N points are N (mass, intensity) pairs read in stream order; a stream that ends first raises EOFException |
| XCalibur.BuildScan | MassCascadeCore/src/main/java/uk/ac/ebi/masscascade/io/XCaliburReader.java:219-231 | the scan carries the cleaned points, an m/z range from the first to the last point, one base peak, and the fields' number, level and parent |
| XCalibur.BlockPoints | MassCascadeCore/src/main/java/uk/ac/ebi/masscascade/io/XCaliburReader.java:204-220 | a DATA POINTS block yields a non-empty cleaned list or an exception (a bad count, a short stream, nothing left after cleaning) |
| XCalibur.DataBlock | MassCascadeCore/src/main/java/uk/ac/ebi/masscascade/io/XCaliburReader.java:203-232 | a block yields the scan built from the fields, with the parent set as in lines 222-226 |
| XCalibur.RunStops | MassCascadeCore/src/main/java/uk/ac/ebi/masscascade/io/XCaliburReader.java:146 | the loop stops at end of stream or an empty line with the fields reached |
| XCalibur.Run | MassCascadeCore/src/main/java/uk/ac/ebi/masscascade/io/XCaliburReader.java:146-245 | the read loop over the remaining lines emits at most one scan per line |
| XCalibur.RunAtData | MassCascadeCore/src/main/java/uk/ac/ebi/masscascade/io/XCaliburReader.java:203-244 | a DATA POINTS line adds its scan and goes on after its points with the fields reset, or raises |
| XCalibur.RunAtLine | MassCascadeCore/src/main/java/uk/ac/ebi/masscascade/io/XCaliburReader.java:147-202 | any other line applies its step and goes on at the next line, or raises |
| XCalibur.LineStepKeepsParentScan | MassCascadeCore/src/main/java/uk/ac/ebi/masscascade/io/XCaliburReader.java:147-202 | no line but DATA POINTS changes the parent scan or the last MS1 scan number |
| XCalibur.LineStep | MassCascadeCore/src/main/java/uk/ac/ebi/masscascade/io/XCaliburReader.java:147-202 | SAMPLE ID and NUMBER OF SCANS lines change nothing, and no line but CREATION DATE changes the creation date |
| XCalibur.ParentScanIsLastMs1 | MassCascadeCore/src/main/java/uk/ac/ebi/masscascade/io/XCaliburReader.java:222-240 | every MS1 scan added has parent −1 and every MSn scan the number of the last MS1 scan before it |
| XCalibur.ScansAreBuiltFromBlocks | MassCascadeCore/src/main/java/uk/ac/ebi/masscascade/io/XCaliburReader.java:218-232 | every scan added has points, one base peak, and an m/z range from its first to its last point |
| XCalibur.FilterLevels | MassCascadeCore/src/main/java/uk/ac/ebi/masscascade/io/XCaliburReader.java:165-192 | a filter with "ms " gives MS1 and keeps the parent m/z; without it the pattern must match, and the level and parent m/z come from its groups |
| XCalibur.ErrorLineFails | MassCascadeCore/src/main/java/uk/ac/ebi/masscascade/io/XCaliburReader.java:147-148 | an ERROR line raises with the rest of the line as its message |
| XCalibur.PrecursorLineDispatch | MassCascadeCore/src/main/java/uk/ac/ebi/masscascade/io/XCaliburReader.java:195 | a PRECURSOR line reaches the precursor branch (no earlier prefix matches it) |
| XCalibur.PrecursorOverridesWhenPositive | MassCascadeCore/src/main/java/uk/ac/ebi/masscascade/io/XCaliburReader.java:195-202 | a PRECURSOR line succeeds iff it has three tokens that parse, and overrides parent m/z and charge exactly when the m/z is positive |
| XCalibur.XCaliburReader.constructor | MassCascadeCore/src/main/java/uk/ac/ebi/masscascade/io/XCaliburReader.java:60-72 | the reader starts with scan 0, MS1, zeros, no ion mode, parent scan and last MS1 scan −1 |
| XCalibur.XCaliburReader.ApplyLine | MassCascadeCore/src/main/java/uk/ac/ebi/masscascade/io/XCaliburReader.java:147-202 | the fields change as LineStep says; on an exception they stay as they were, but for the ion mode and level a filter line may already have set |
| XCalibur.XCaliburReader.ApplyScanLine | MassCascadeCore/src/main/java/uk/ac/ebi/masscascade/io/XCaliburReader.java:159-202 | the lines from BASE PEAK MZ on set their fields as ScanLineStep says |
| XCalibur.XCaliburReader.ApplyFilter | MassCascadeCore/src/main/java/uk/ac/ebi/masscascade/io/XCaliburReader.java:165-192 | the ion mode is set before anything can raise; level and parent m/z as FilterStep says |
| XCalibur.XCaliburReader.ReadPoints | MassCascadeCore/src/main/java/uk/ac/ebi/masscascade/io/XCaliburReader.java:210-213 | the loop reads exactly ReadPeaks's points, or raises EOFException as it does |
| XCalibur.XCaliburReader.ReadBlock | MassCascadeCore/src/main/java/uk/ac/ebi/masscascade/io/XCaliburReader.java:204-220 | the points read and cleaned in the mode the centroid test picks, as BlockPoints says |
| XCalibur.XCaliburReader.AddScanAndReset | MassCascadeCore/src/main/java/uk/ac/ebi/masscascade/io/XCaliburReader.java:232-243 | the scan goes to the container; when addScan returns the fields are reset, and when it raises they are not |
| XCalibur.XCaliburReader.ResetFields | MassCascadeCore/src/main/java/uk/ac/ebi/masscascade/io/XCaliburReader.java:234-243 | the fields become Reset of their old values |
| XCalibur.XCaliburReader.ReadDataPoints | MassCascadeCore/src/main/java/uk/ac/ebi/masscascade/io/XCaliburReader.java:203-244 | a failing block changes nothing; otherwise the built scan is stored, the parent set and the fields reset |
| XCalibur.XCaliburReader.StoreBlock | MassCascadeCore/src/main/java/uk/ac/ebi/masscascade/io/XCaliburReader.java:219-243 | the parent link is set by level, the scan is built from the cleaned points with their first and last m/z as range, it is handed to the container, and the fields are reset unless the container fails |
| XCalibur.XCaliburReader.Step | MassCascadeCore/src/main/java/uk/ac/ebi/masscascade/io/XCaliburReader.java:146-244 | one pass stores at most one scan, the first of the run's remaining scans, and leaves the rest of the run unchanged |
| XCalibur.XCaliburReader.ReadLines | MassCascadeCore/src/main/java/uk/ac/ebi/masscascade/io/XCaliburReader.java:141-246 | the loop stores the scans of Run in order: all of them when it ends at a null line, a prefix when it raises |
| XCalibur.XCaliburReader.ReadRawDump | MassCascadeCore/src/main/java/uk/ac/ebi/masscascade/io/XCaliburReader.java:139-249 | a normal read stores every scan of the run in order and finalises the container with the creation date read |
| RawContainers.StoredAllAppend | MassCascadeCore/src/main/java/uk/ac/ebi/masscascade/core/container/memory/raw/MemoryRawContainer.java:137-175 | filing two lists of scans one after the other files their concatenation in order |
| RawContainers.StoredScansHoldsScan | MassCascadeCore/src/main/java/uk/ac/ebi/masscascade/core/container/memory/raw/MemoryRawContainer.java:141-153 | a filed scan is held under its index by the layer at its level's position, or by a new last layer; every other layer is unchanged |
| RawContainers.FindScanIsFirstHolder | MassCascadeCore/src/main/java/uk/ac/ebi/masscascade/core/container/memory/raw/MemoryRawContainer.java:309-316 | getScan finds a scan iff some layer holds the index, and returns that of the first such layer |
| RawContainers.CollectSound | MassCascadeCore/src/main/java/uk/ac/ebi/masscascade/core/container/memory/raw/MemoryRawContainer.java:353-366 | every entry of the parent-daughter map comes from one daughter scan with a non-zero parent m/z |
| RawContainers.CollectComplete | MassCascadeCore/src/main/java/uk/ac/ebi/masscascade/core/container/memory/raw/MemoryRawContainer.java:353-366 | with distinct parents, every daughter scan with a non-zero parent m/z is in the map |
| RawContainers.CollectKeepsAccumulator | MassCascadeCore/src/main/java/uk/ac/ebi/masscascade/core/container/memory/raw/MemoryRawContainer.java:359-365 | an entry once made is never changed |
| RawContainers.CollectStopsAtRepeat | MassCascadeCore/src/main/java/uk/ac/ebi/masscascade/core/container/memory/raw/MemoryRawContainer.java:359-361 | the loop stops at the first repeated parent, ignoring all later scans |
| RawContainers.BuildTics | MassCascadeCore/src/main/java/uk/ac/ebi/masscascade/core/container/memory/raw/MemoryRawContainer.java:189-194 | the TIC loop puts one chromatogram per existing layer, MS1 up, from its buffer; null buffers with a layer present raise |
| RawContainers.PutTicsAt | MassCascadeCore/src/main/java/uk/ac/ebi/masscascade/core/container/memory/raw/MemoryRawContainer.java:189-194 | after the loop, a level within the layer count maps to its buffer's data and every other level is as before |
| RawContainers.PutTicsCovers | MassCascadeCore/src/main/java/uk/ac/ebi/masscascade/core/container/memory/raw/MemoryRawContainer.java:189-194 | the same for all levels at once, with the map's keys kept distinct |
| RawContainers.MemoryRawContainer.constructor | MassCascadeCore/src/main/java/uk/ac/ebi/masscascade/core/container/memory/raw/MemoryRawContainer.java:69-81 | a new container has no date, no levels, no scans, no chromatograms and empty buffers |
| RawContainers.MemoryRawContainer.AddScan | MassCascadeCore/src/main/java/uk/ac/ebi/masscascade/core/container/memory/raw/MemoryRawContainer.java:137-165 | a scan of a level that has a layer replaces by index and widens that layer's m/z and time ranges; any other opens a new layer; MS1 base peak and TIC points are buffered; a null buffer raises |
| RawContainers.MemoryRawContainer.FileScan | MassCascadeCore/src/main/java/uk/ac/ebi/masscascade/core/container/memory/raw/MemoryRawContainer.java:139-157 | a scan of a level that has a layer replaces that layer's scan of its index and widens the layer's m/z and time ranges; any other scan opens a new layer and RawLevel; the buffers are untouched |
| RawContainers.MemoryRawContainer.AddBasePoint | MassCascadeCore/src/main/java/uk/ac/ebi/masscascade/core/container/memory/raw/MemoryRawContainer.java:147-148 | an MS1 scan with a base peak appends (retention time, base-peak intensity) to the buffer and fails exactly when the buffer is null; any other scan leaves it unchanged |
| RawContainers.MemoryRawContainer.AddTicPoint | MassCascadeCore/src/main/java/uk/ac/ebi/masscascade/core/container/memory/raw/MemoryRawContainer.java:149-163 | the TIC point is appended to its level's buffer for an existing layer or starts a one-point buffer for a new one; fails exactly when the buffer map is null or an existing layer has no buffer |
| RawContainers.MemoryRawContainer.FinaliseFile | MassCascadeCore/src/main/java/uk/ac/ebi/masscascade/core/container/memory/raw/MemoryRawContainer.java:183-197 | a non-null date is kept, the base-peak buffer becomes the chromatogram, the TICs are built and both buffers dropped |
| RawContainers.MemoryRawContainer.GetScan | MassCascadeCore/src/main/java/uk/ac/ebi/masscascade/core/container/memory/raw/MemoryRawContainer.java:309-316 | the loop returns FindScan: the scan of the first layer holding the index, or null |
| RawContainers.MemoryRawContainer.GetScanByIndex | MassCascadeCore/src/main/java/uk/ac/ebi/masscascade/core/container/memory/raw/MemoryRawContainer.java:325-338 | the i-th scan of the first layer, null past its end, an exception on an empty container |
| RawContainers.MemoryRawContainer.RemoveAll | MassCascadeCore/src/main/java/uk/ac/ebi/masscascade/core/container/memory/raw/MemoryRawContainer.java:277-280 | removeAll clears the scans only, returns true, and leaves levels and chromatograms as they were |
| RawContainers.MemoryRawContainer.GetMSnParentDaughterMap | MassCascadeCore/src/main/java/uk/ac/ebi/masscascade/core/container/memory/raw/MemoryRawContainer.java:346-369 | the loop returns DaughterMap: empty with fewer than two layers, else the second layer's daughters keyed by parent, zero parent m/z skipped, stopping at a repeat |
| Baseline.ExtIsExtreme | MassCascadeCore/src/main/java/uk/ac/ebi/masscascade/background/BaselineSubtraction.java:185-192 | the running extremum is an element of the window and beats every element of it |
| Baseline.ExtSplit | MassCascadeCore/src/main/java/uk/ac/ebi/masscascade/background/BaselineSubtraction.java:191-193 | the extremum of two joined blocks is the pick of the two blocks' extrema, in either order |
| Baseline.PaddedWindow | MassCascadeCore/src/main/java/uk/ac/ebi/masscascade/background/BaselineSubtraction.java:163-175 | the 2q+1 padded values from o hold exactly the values of the feature's window around o, cut at both ends |
| Baseline.PadArrays | MassCascadeCore/src/main/java/uk/ac/ebi/masscascade/background/BaselineSubtraction.java:157-175 | the padded copy is the intensities shifted by q with the first value repeated on the left and the last up to fn; the working arrays are seeded with them |
| Baseline.Block | MassCascadeCore/src/main/java/uk/ac/ebi/masscascade/background/BaselineSubtraction.java:180-187 | one block fills the forward running extremum from its left end and the backward one from its right end, and touches nothing outside it |
| Baseline.Blocks | MassCascadeCore/src/main/java/uk/ac/ebi/masscascade/background/BaselineSubtraction.java:178-188 | the block loop covers every block that starts before n+q and leaves the seeded ends alone |
| Baseline.Merge | MassCascadeCore/src/main/java/uk/ac/ebi/masscascade/background/BaselineSubtraction.java:191-193 | the merge picks, for each point, between the forward value at o+k−1 and the backward value at o |
| Baseline.MergeCorrect | MassCascadeCore/src/main/java/uk/ac/ebi/masscascade/background/BaselineSubtraction.java:191-193 | that pick is the extremum of the k padded values from o: the van Herk / Gil-Werman identity |
| Baseline.Sweep | MassCascadeCore/src/main/java/uk/ac/ebi/masscascade/background/BaselineSubtraction.java:154-196 | the whole filter gives each point the extremum of its window of q points either side, cut at the feature's ends |
| Baseline.SweepWindows | MassCascadeCore/src/main/java/uk/ac/ebi/masscascade/background/BaselineSubtraction.java:154-196 | once the blocks are filled, every merged value is the extremum of its window of q points either side, cut at the feature's ends |
| Baseline.FilteredBeats | MassCascadeCore/src/main/java/uk/ac/ebi/masscascade/background/BaselineSubtraction.java:185-238 | erosion never raises a point and dilation never lowers one |
| Baseline.OpeningBelowInput | MassCascadeCore/src/main/java/uk/ac/ebi/masscascade/background/BaselineSubtraction.java:125-126 | the opening (erosion then dilation) never exceeds the signal |
| Baseline.OpenedConstant | MassCascadeCore/src/main/java/uk/ac/ebi/masscascade/background/BaselineSubtraction.java:125-126 | a flat signal is its own opening |
| Baseline.Erosion | MassCascadeCore/src/main/java/uk/ac/ebi/masscascade/background/BaselineSubtraction.java:154-196 | erosion is the running minimum over the element |
| Baseline.Dilation | MassCascadeCore/src/main/java/uk/ac/ebi/masscascade/background/BaselineSubtraction.java:208-248 | dilation is the running maximum over the element |
| Baseline.HalfWindowWidth | MassCascadeCore/src/main/java/uk/ac/ebi/masscascade/background/BaselineSubtraction.java:76 | the half width is the scan window halved, truncated toward zero |
| Baseline.OpenIntensities | MassCascadeCore/src/main/java/uk/ac/ebi/masscascade/background/BaselineSubtraction.java:113-126 | the intensities of the feature, eroded and then dilated |
| Baseline.TopHat | MassCascadeCore/src/main/java/uk/ac/ebi/masscascade/background/BaselineSubtraction.java:108-142 | a feature the element does not fit is returned unchanged; otherwise its first point is kept and every later point has its opening subtracted and 10 added, so none falls below 10 |
| Biehman.RisesIsComparison | MassCascadeCore/src/main/java/uk/ac/ebi/masscascade/deconvolution/BiehmanWindow.java:118-137 | the square-root-free Rises is exactly curDp.y > noiseEstimate · sqrt(min.y) for the root of a non-negative min |
| Biehman.ScanRightWindow | MassCascadeCore/src/main/java/uk/ac/ebi/masscascade/deconvolution/BiehmanWindow.java:106-123 | the right loop moves its boundary right within oriRightBoundary, keeps the lowest point inside the window and lowest there, and stops early only below the threshold or before a rise |
| Biehman.ScanLeftWindow | MassCascadeCore/src/main/java/uk/ac/ebi/masscascade/deconvolution/BiehmanWindow.java:125-142 | the mirror image for the left loop, bounded by oriLeftBoundary |
| Biehman.WindowBounds | MassCascadeCore/src/main/java/uk/ac/ebi/masscascade/deconvolution/BiehmanWindow.java:100-143 | oriLeft ≤ leftBoundary ≤ leftMin ≤ maxDpIndex ≤ rightMin ≤ rightBoundary ≤ oriRight, each lowest point the lowest of its side when the maximum is non-negative |
| Biehman.BiehmanWindow.constructor | MassCascadeCore/src/main/java/uk/ac/ebi/masscascade/deconvolution/BiehmanWindow.java:59-82 | the window is centred on the first highest point of [oriLeft, oriRight] and both sides are grown as estimateWindow does |
| Biehman.BiehmanWindow.FindMaximumDp | MassCascadeCore/src/main/java/uk/ac/ebi/masscascade/deconvolution/BiehmanWindow.java:87-95 | the loop finds the first highest point of the original range, the strict < keeping the earliest of equal maxima |
| Biehman.BiehmanWindow.EstimateWindow | MassCascadeCore/src/main/java/uk/ac/ebi/masscascade/deconvolution/BiehmanWindow.java:100-143 | the two loops give the sides ScanRight and ScanLeft compute, within the bounds of WindowBounds |
| Splitter.Advance | MassCascadeCore/src/main/java/uk/ac/ebi/masscascade/tracebuilder/ProfileSplitter.java:107-113 | a new profile takes the next id and starts at the preceding point when point i is not zero and an earlier profile exists, else at point i |
| Splitter.SplitWellFormed | MassCascadeCore/src/main/java/uk/ac/ebi/masscascade/tracebuilder/ProfileSplitter.java:105-121 | every profile emitted holds at least two points, ends with a zero point and has no zero strictly inside |
| Splitter.SplitChained | MassCascadeCore/src/main/java/uk/ac/ebi/masscascade/tracebuilder/ProfileSplitter.java:108-119 | each profile after a cut starts at the closing zero when the next point is non-zero, else at that next point |
| Splitter.SplitNumbered | MassCascadeCore/src/main/java/uk/ac/ebi/masscascade/tracebuilder/ProfileSplitter.java:109-112 | emitted profiles carry consecutive ids; the counter also counts a profile left open at the end |
| Splitter.SplitTail | MassCascadeCore/src/main/java/uk/ac/ebi/masscascade/tracebuilder/ProfileSplitter.java:98-122 | after the start of the profile left open by the cuts, no point is zero: no closing zero is missed, so the cuts are all the profiles |
| Splitter.TraceCuts | MassCascadeCore/src/main/java/uk/ac/ebi/masscascade/tracebuilder/ProfileSplitter.java:98-122 | a whole trace: well-formed, chained profiles numbered from the counter, the first starting at point 0; the points after the start of the last open profile hold no zero, so that tail is unfinished, is dropped and uses an id |
| Splitter.TracksStep | MassCascadeCore/src/main/java/uk/ac/ebi/masscascade/tracebuilder/ProfileSplitter.java:105-121 | one pass of the loop emits a profile exactly when the point is zero and the profile has more than one point |
| Splitter.ProfileSplitter.constructor | MassCascadeCore/src/main/java/uk/ac/ebi/masscascade/tracebuilder/ProfileSplitter.java:56-61 | the id counter starts at 0 with no profiles |
| Splitter.ProfileSplitter.ExtractTraces | MassCascadeCore/src/main/java/uk/ac/ebi/masscascade/tracebuilder/ProfileSplitter.java:98-122 | the loop appends exactly the profiles of SplitFrom, slices of the trace with its m/z range, and leaves the counter at SplitFrom's count |
| Smoothing.InsertAdds | MassCascadeCore/src/main/java/uk/ac/ebi/masscascade/smoothing/RunningMedianSmoothing.java:112 | inserting into the sorted window adds exactly the one value |
| Smoothing.InsertSorted | MassCascadeCore/src/main/java/uk/ac/ebi/masscascade/smoothing/RunningMedianSmoothing.java:112 | inserting into a sorted list keeps it sorted |
| Smoothing.SortAscSorts | MassCascadeCore/src/main/java/uk/ac/ebi/masscascade/smoothing/RunningMedianSmoothing.java:112 | Arrays.sort yields a sorted permutation of the window |
| Smoothing.SlideKeepsNewest | MassCascadeCore/src/main/java/uk/ac/ebi/masscascade/smoothing/RunningMedianSmoothing.java:91-95 | newNum keeps at most mzWindow values, the newest ones, the oldest evicted first |
| Smoothing.FeedKeepsNewest | MassCascadeCore/src/main/java/uk/ac/ebi/masscascade/smoothing/RunningMedianSmoothing.java:53-140 | the window is shared across scans: after any number of values it holds the newest mzWindow of everything fed |
| Smoothing.MedianSplitsWindow | MassCascadeCore/src/main/java/uk/ac/ebi/masscascade/smoothing/RunningMedianSmoothing.java:102-117 | the median of a full window is at least the lower half and at most the upper half of its sorted copy |
| Smoothing.WindowMedianAsWrittenDiffers | MassCascadeCore/src/main/java/uk/ac/ebi/masscascade/smoothing/RunningMedianSmoothing.java:113-114 | as written, [1,2,3] gives 2.5, [1,2] gives 2, and a one-value window reads past the array; the intended medians are 2, 1.5 and the value |
| Smoothing.SmoothedNonNegative | MassCascadeCore/src/main/java/uk/ac/ebi/masscascade/smoothing/RunningMedianSmoothing.java:138-144 | every kept point has a non-negative intensity and no point is added |
| Smoothing.SmoothedWhileFilling | MassCascadeCore/src/main/java/uk/ac/ebi/masscascade/smoothing/RunningMedianSmoothing.java:104-143 | while the window is not yet full the median is 0 and only negative intensities are dropped |
| Smoothing.SmoothStep | MassCascadeCore/src/main/java/uk/ac/ebi/masscascade/smoothing/RunningMedianSmoothing.java:138-144 | one point: the window slides, then y − median is kept when it is not negative |
| Smoothing.SmoothAllStep | MassCascadeCore/src/main/java/uk/ac/ebi/masscascade/smoothing/RunningMedianSmoothing.java:136-147 | the first scan is smoothed from the current window and the rest from the window it leaves |
| Smoothing.RunningMedianSmoothing.constructor | MassCascadeCore/src/main/java/uk/ac/ebi/masscascade/smoothing/RunningMedianSmoothing.java:53-81 | the window starts empty with the configured length |
| Smoothing.RunningMedianSmoothing.NewNum | MassCascadeCore/src/main/java/uk/ac/ebi/masscascade/smoothing/RunningMedianSmoothing.java:91-95 | the queue becomes Slide of the old one and stays bounded |
| Smoothing.RunningMedianSmoothing.GetMedian | MassCascadeCore/src/main/java/uk/ac/ebi/masscascade/smoothing/RunningMedianSmoothing.java:102-117 | 0 for a window that is not full, the sorted copy's median otherwise |
| Smoothing.RunningMedianSmoothing.SmoothScan | MassCascadeCore/src/main/java/uk/ac/ebi/masscascade/smoothing/RunningMedianSmoothing.java:136-146 | one scan smoothed as SmoothFrom says, the window fed with all of its intensities |
| Smoothing.RunningMedianSmoothing.SmoothScans | MassCascadeCore/src/main/java/uk/ac/ebi/masscascade/smoothing/RunningMedianSmoothing.java:133-147 | the MS1 scans smoothed in order with the window carried from scan to scan |
| MathUtils.ToleranceRanges | MassCascadeCore/src/main/java/uk/ac/ebi/masscascade/utilities/math/MathUtils.java:48-72 | the absolute range is centred on x and 2·abs wide, containing x iff abs > 0; the ppm range is the absolute range for ppm·x/10^6, the same one XYPoint builds |
| MathUtils.RangeFromAbs | MassCascadeCore/src/main/java/uk/ac/ebi/masscascade/utilities/math/MathUtils.java:48-50 | the absolute range is centred on x and 2·abs wide |
| MathUtils.AbsTolerance | MassCascadeCore/src/main/java/uk/ac/ebi/masscascade/utilities/math/MathUtils.java:70-72 | the absolute tolerance times 10^6 is x·ppm, and it is not negative for non-negative x and ppm |
| MathUtils.RangeFromPPM | MassCascadeCore/src/main/java/uk/ac/ebi/masscascade/utilities/math/MathUtils.java:59-61 | the ppm range is the absolute range for the absolute tolerance of x and ppm |
| MathUtils.MedianAsWritten | MassCascadeCore/src/main/java/uk/ac/ebi/masscascade/utilities/math/MathUtils.java:79-92 | getMedian as written fails exactly on an empty array, where Java throws ArrayIndexOutOfBoundsException |
| MathUtils.MedianAsWrittenIsUpperMiddle | MassCascadeCore/src/main/java/uk/ac/ebi/masscascade/utilities/math/MathUtils.java:79-92 | on a non-empty array getMedian returns the element at length/2 for both parities: floor and ceil of an integer quotient coincide |
| MathUtils.MedianIsSymmetric | MassCascadeCore/src/main/java/uk/ac/ebi/masscascade/utilities/math/MathUtils.java:79-92 | the median as evidently intended is the middle of a sorted list (at least the lower half, at most the upper half) and commutes with negated reversal |
| MathUtils.MedianAsWrittenEvenCase | MassCascadeCore/src/main/java/uk/ac/ebi/masscascade/utilities/math/MathUtils.java:83-84 | for [1, 2] getMedian gives 2 where the median is 1.5, and it is not symmetric under negated reversal |
| MathUtils.RoundTruncates | MassCascadeCore/src/main/java/uk/ac/ebi/masscascade/utilities/math/MathUtils.java:117-119 | within the int range, rounding keeps the sign, never grows the magnitude, moves by less than 0.001 and is idempotent |
| MathUtils.RoundToThreeDecimals | MassCascadeCore/src/main/java/uk/ac/ebi/masscascade/utilities/math/MathUtils.java:117-119 | the rounded value times 1000 is the (int) truncation of value·1000 |
| MathUtils.ClosestIsAbsClosestToMean | MassCascadeCore/src/main/java/uk/ac/ebi/masscascade/utilities/math/MathUtils.java:143-145 | the range's closest value is isAbsClosest applied at the range's mean |
| MathUtils.IsAbsClosest | MassCascadeCore/src/main/java/uk/ac/ebi/masscascade/utilities/math/MathUtils.java:143-145 | isAbsClosest holds when value 1 is the target or equals value 2, and fails when only value 2 is the target |
| MathUtils.GetTrapezoidArea | MassCascadeCore/src/main/java/uk/ac/ebi/masscascade/utilities/math/MathUtils.java:244-259 | the loop sums dX·\|dz\|/2 + dX·z[i−1] over consecutive points, 0 for fewer than two |
| MathUtils.SegmentOvershoot | MassCascadeCore/src/main/java/uk/ac/ebi/masscascade/utilities/math/MathUtils.java:252-255 | each segment as written exceeds the trapezoid by dX·max(0, z[i−1] − z[i]) |
| MathUtils.AreaAsWrittenOnRisingProfile | MassCascadeCore/src/main/java/uk/ac/ebi/masscascade/utilities/math/MathUtils.java:244-259 | on a profile that never falls the area as written is the trapezoid area |
| MathUtils.AreaMirror | MassCascadeCore/src/main/java/uk/ac/ebi/masscascade/utilities/math/MathUtils.java:244-259 | the trapezoid area does not depend on the direction the profile is read in |
| MathUtils.AreaAsWrittenFallingSegment | MassCascadeCore/src/main/java/uk/ac/ebi/masscascade/utilities/math/MathUtils.java:253-255 | a falling segment from height 2 to 0 over width 1 gives 3 where the trapezoid is 1 |
| MathUtils.AreaAsWrittenRisingMirror | MassCascadeCore/src/main/java/uk/ac/ebi/masscascade/utilities/math/MathUtils.java:253-255 | the same segment read backwards gives 1: the area as written depends on the direction |
| Matrices.RowScaled | MassCascadeCore/src/main/java/uk/ac/ebi/masscascade/utilities/math/Matrix.java:100-102 | every value of the row is multiplied by the factor |
| Matrices.RowCombined | MassCascadeCore/src/main/java/uk/ac/ebi/masscascade/utilities/math/Matrix.java:114-117 | every value of the destination row gets factor times the source row's value added |
| Matrices.SwapRowsInvolution | MassCascadeCore/src/main/java/uk/ac/ebi/masscascade/utilities/math/Matrix.java:83-90 | a swap exchanges exactly the two rows, is undone by swapping again, and is a no-op for i == j |
| Matrices.ScaleRowInverse | MassCascadeCore/src/main/java/uk/ac/ebi/masscascade/utilities/math/Matrix.java:98-103 | scaling changes row i only and is undone by the inverse factor |
| Matrices.CombineRowsInverse | MassCascadeCore/src/main/java/uk/ac/ebi/masscascade/utilities/math/Matrix.java:112-118 | combining changes the destination row only and is undone by the negated factor |
| Matrices.ApplyAppend | MassCascadeCore/src/main/java/uk/ac/ebi/masscascade/utilities/math/Matrix.java:83-118 | applying two histories in a row is applying their concatenation |
| Matrices.InverseOpUndoes | MassCascadeCore/src/main/java/uk/ac/ebi/masscascade/utilities/math/Matrix.java:83-118 | a swap, a scaling by a nonzero factor, or a combination of two different rows is undone by its inverse on every matrix |
| Matrices.InverseUndoes | MassCascadeCore/src/main/java/uk/ac/ebi/masscascade/utilities/math/Matrix.java:83-118 | the reversed list of inverses undoes an invertible history, so no row operation loses information |
| Matrices.InverseInvertible | MassCascadeCore/src/main/java/uk/ac/ebi/masscascade/utilities/math/Matrix.java:83-118 | the inverse of an invertible history is invertible |
| Matrices.RowEquivalentSymmetric | MassCascadeCore/src/main/java/uk/ac/ebi/masscascade/utilities/math/Matrix.java:83-118 | a matrix reached by an invertible history reaches its origin back |
| Matrices.OnlyZeroReachesZero | MassCascadeCore/src/main/java/uk/ac/ebi/masscascade/utilities/math/Matrix.java:83-118 | an invertible history reaches the zero matrix only from the zero matrix |
| Matrices.SetSame | MassCascadeCore/src/main/java/uk/ac/ebi/masscascade/utilities/math/Matrix.java:73-75 | storing the value an entry already holds leaves the rows unchanged |
| Matrices.Matrix.constructor | MassCascadeCore/src/main/java/uk/ac/ebi/masscascade/utilities/math/Matrix.java:35-40 | the dimensions are those of the given rows, the first row giving the width |
| Matrices.Matrix.Empty | MassCascadeCore/src/main/java/uk/ac/ebi/masscascade/utilities/math/Matrix.java:48-53 | m rows of n zeros |
| Matrices.Matrix.Set | MassCascadeCore/src/main/java/uk/ac/ebi/masscascade/utilities/math/Matrix.java:73-75 | exactly the one entry changes |
| Matrices.Matrix.SwapRow | MassCascadeCore/src/main/java/uk/ac/ebi/masscascade/utilities/math/Matrix.java:83-90 | the rows become SwapRows of the old ones; the dimensions stay fixed |
| Matrices.Matrix.MultiplyRow | MassCascadeCore/src/main/java/uk/ac/ebi/masscascade/utilities/math/Matrix.java:98-103 | the column loop leaves ScaleRow of the old rows |
| Matrices.Matrix.CombineRow | MassCascadeCore/src/main/java/uk/ac/ebi/masscascade/utilities/math/Matrix.java:112-118 | the column loop leaves CombineRows of the old rows |
| LinearSolving.FirstNonzeroRowFinds | MassCascadeCore/src/main/java/uk/ac/ebi/masscascade/utilities/math/LinearSolver.java:88-94 | the inner search returns the first row from rank on that is nonzero in the column, or −1 when the column is zero there |
| LinearSolving.PivotFromFinds | MassCascadeCore/src/main/java/uk/ac/ebi/masscascade/utilities/math/LinearSolver.java:85-97 | findPivot returns the first column after the previous pivot with a nonzero entry in a row ≥ rank, and its first such row; else −1 with all those entries zero |
| LinearSolving.LeadingFromFinds | MassCascadeCore/src/main/java/uk/ac/ebi/masscascade/utilities/math/LinearSolver.java:126-131 | findLeadingValue is −1 exactly for an all-zero row, else the column of its first nonzero value |
| LinearSolving.EchelonZeroBelowPivots | MassCascadeCore/src/main/java/uk/ac/ebi/masscascade/utilities/math/LinearSolver.java:68-75 | in echelon form every entry below a pivot is zero |
| LinearSolving.PivotFound | MassCascadeCore/src/main/java/uk/ac/ebi/masscascade/utilities/math/LinearSolver.java:55-56 | either a pivot exists in the rows from rank on, or those rows are all zero and elimination may stop |
| LinearSolving.SwapFound | MassCascadeCore/src/main/java/uk/ac/ebi/masscascade/utilities/math/LinearSolver.java:57 | swapping the pivot row up keeps the rows above in echelon form |
| LinearSolving.ScaleFound | MassCascadeCore/src/main/java/uk/ac/ebi/masscascade/utilities/math/LinearSolver.java:60-65 | scaling the pivot row and forcing its leading value to 1 gives a leading one with zeros before it |
| LinearSolving.ReduceRow | MassCascadeCore/src/main/java/uk/ac/ebi/masscascade/utilities/math/LinearSolver.java:68-74 | clearing one row below the pivot and forcing the entry to 0 keeps the rows before it cleared |
| LinearSolving.ReduceDone | MassCascadeCore/src/main/java/uk/ac/ebi/masscascade/utilities/math/LinearSolver.java:68-75 | after the loop, the pivot column is zero below the pivot: the echelon form grows by one pivot |
| LinearSolving.LeadingOfGaussForm | MassCascadeCore/src/main/java/uk/ac/ebi/masscascade/utilities/math/LinearSolver.java:108-109 | on a Gauss result a pivot row's leading value is its pivot column and a zero row gives −1 |
| LinearSolving.ClearRow | MassCascadeCore/src/main/java/uk/ac/ebi/masscascade/utilities/math/LinearSolver.java:112-115 | adding −v times the pivot row clears one entry above the pivot and keeps the Gauss form |
| LinearSolving.CombineAboveKeepsGauss | MassCascadeCore/src/main/java/uk/ac/ebi/masscascade/utilities/math/LinearSolver.java:114 | adding a multiple of a lower pivot row to a row above keeps the Gauss form |
| LinearSolving.ClearDone | MassCascadeCore/src/main/java/uk/ac/ebi/masscascade/utilities/math/LinearSolver.java:112-116 | once the rows above pivot k are cleared, every pivot from k on is cleared above |
| LinearSolving.PivotColumnsAreUnit | MassCascadeCore/src/main/java/uk/ac/ebi/masscascade/utilities/math/LinearSolver.java:104-117 | in the Gauss-Jordan result every pivot column is a unit column |
| LinearSolving.LinearSolver.constructor | MassCascadeCore/src/main/java/uk/ac/ebi/masscascade/utilities/math/LinearSolver.java:28-30 | both pivot fields start at 0 |
| LinearSolving.LinearSolver.Solve | MassCascadeCore/src/main/java/uk/ac/ebi/masscascade/utilities/math/LinearSolver.java:38-43 | the result is in echelon form with leading ones and zero rows after the pivots, and without gaussOnly also zero above every leading one; it is the input with an invertible list of row operations applied, so the two are row-equivalent both ways |
| LinearSolving.LinearSolver.DoGauss | MassCascadeCore/src/main/java/uk/ac/ebi/masscascade/utilities/math/LinearSolver.java:50-77 | the elimination loop ends in echelon form with leading ones, stopping when no pivot remains; the result is the input with the invertible swaps, scalings and combinations it applied |
| LinearSolving.LinearSolver.SwapPivotUp | MassCascadeCore/src/main/java/uk/ac/ebi/masscascade/utilities/math/LinearSolver.java:57 | swapping the pivot row up to row rank (or nothing when it is already there) puts the pivot at (rank, pc), by at most one swap of the old rows |
| LinearSolving.LinearSolver.ScalePivot | MassCascadeCore/src/main/java/uk/ac/ebi/masscascade/utilities/math/LinearSolver.java:60-65 | dividing the pivot row by a leading value other than 1 gives a leading 1 with zeros before it; the forced store of 1.0 changes nothing over the reals, so the rows are one scaling of the old rows |
| LinearSolving.LinearSolver.ReduceBelow | MassCascadeCore/src/main/java/uk/ac/ebi/masscascade/utilities/math/LinearSolver.java:68-75 | every entry below the pivot becomes exactly 0, and the rows are the old rows with one combination per nonzero entry applied |
| LinearSolving.LinearSolver.ReduceRowBelow | MassCascadeCore/src/main/java/uk/ac/ebi/masscascade/utilities/math/LinearSolver.java:69-74 | one row below the pivot is cleared in the pivot column by one combination with the pivot row; the forced store of 0.0 changes nothing over the reals |
| LinearSolving.LinearSolver.FindPivot | MassCascadeCore/src/main/java/uk/ac/ebi/masscascade/utilities/math/LinearSolver.java:85-97 | the two loops return the pivot PivotFrom names, (−1, −1) when there is none |
| LinearSolving.LinearSolver.DoGaussJordan | MassCascadeCore/src/main/java/uk/ac/ebi/masscascade/utilities/math/LinearSolver.java:104-117 | from the last row up to row 1 the column of each leading value is cleared above it; the rows are the old rows with the combinations applied |
| LinearSolving.LinearSolver.ClearAbove | MassCascadeCore/src/main/java/uk/ac/ebi/masscascade/utilities/math/LinearSolver.java:112-115 | the rows above the pivot row are cleared in its column, by combinations with the pivot row applied to the old rows |
| LinearSolving.LinearSolver.ClearRowAbove | MassCascadeCore/src/main/java/uk/ac/ebi/masscascade/utilities/math/LinearSolver.java:113-114 | a row above the pivot holding v in the pivot column gets −v times the pivot row, and a row holding 0 is left alone |
| LinearSolving.LinearSolver.FindLeadingValue | MassCascadeCore/src/main/java/uk/ac/ebi/masscascade/utilities/math/LinearSolver.java:126-131 | the loop returns LeadingFrom of the row |
| ChartUtils.BinIndex | MassCascadeCore/src/main/java/uk/ac/ebi/masscascade/utilities/ChartUtils.java:84-87 | a point in range gets a bin between 0 and numberOfBins − 1, the upper bound going into the last bin rather than past the array |
| ChartUtils.BinIndexLocates | MassCascadeCore/src/main/java/uk/ac/ebi/masscascade/utilities/ChartUtils.java:54-87 | the bin covers the point: lower + b·width ≤ x < lower + (b+1)·width, the last bin closed at the upper bound |
| ChartUtils.MaxOfIsMaximum | MassCascadeCore/src/main/java/uk/ac/ebi/masscascade/utilities/ChartUtils.java:90-98 | the MAX bin value is one of its y values and at least every one of them |
| ChartUtils.MinOfIsMinimum | MassCascadeCore/src/main/java/uk/ac/ebi/masscascade/utilities/ChartUtils.java:99-107 | the MIN bin value is one of its y values and at most every one of them |
| ChartUtils.SumBetween | MassCascadeCore/src/main/java/uk/ac/ebi/masscascade/utilities/ChartUtils.java:121-128 | y values between lo and hi sum to between n·lo and n·hi |
| ChartUtils.AverageBetween | MassCascadeCore/src/main/java/uk/ac/ebi/masscascade/utilities/ChartUtils.java:132-138 | an AVG bin's value lies between the bin's minimum and maximum |
| ChartUtils.BinnedBelowSnoc | MassCascadeCore/src/main/java/uk/ac/ebi/masscascade/utilities/ChartUtils.java:63-87 | one more point adds one to the bins below k exactly when it is in range and its bin is below k |
| ChartUtils.BinsPartition | MassCascadeCore/src/main/java/uk/ac/ebi/masscascade/utilities/ChartUtils.java:63-87 | every point in range lands in exactly one bin: the bin sizes add up to the number of points in range |
| ChartUtils.EmptyBins | MassCascadeCore/src/main/java/uk/ac/ebi/masscascade/utilities/ChartUtils.java:53 | with no points every bin is empty |
| ChartUtils.AccumulateStep | MassCascadeCore/src/main/java/uk/ac/ebi/masscascade/utilities/ChartUtils.java:67-129 | a point out of range changes no bin; a point in range changes its own bin only, as the switch on the binning type says |
| ChartUtils.AccumulatedFinal | MassCascadeCore/src/main/java/uk/ac/ebi/masscascade/utilities/ChartUtils.java:132 | for SUM, MAX and MIN the accumulated bins are already final |
| ChartUtils.AverageStep | MassCascadeCore/src/main/java/uk/ac/ebi/masscascade/utilities/ChartUtils.java:133-137 | dividing a nonempty AVG bin's sum by its count gives the bin's average; empty bins stay null |
| ChartUtils.AbsorbPoint | MassCascadeCore/src/main/java/uk/ac/ebi/masscascade/utilities/ChartUtils.java:89-129 | only the point's bin and its count change: MAX/MIN replace on a strictly better value, SUM/AVG add, AVG counts |
| ChartUtils.AccumulateBins | MassCascadeCore/src/main/java/uk/ac/ebi/masscascade/utilities/ChartUtils.java:63-130 | after the loop every bin holds the accumulated value of its points; with no bins, it fails exactly when some point is in range |
| ChartUtils.AverageBins | MassCascadeCore/src/main/java/uk/ac/ebi/masscascade/utilities/ChartUtils.java:132-138 | after the loop every bin holds its final average |
| ChartUtils.BinValues | MassCascadeCore/src/main/java/uk/ac/ebi/masscascade/utilities/ChartUtils.java:50-179 | a negative bin count fails; zero bins fail exactly when a point is in range; otherwise one value per bin, the sum, max, min or average of its points' y values, 0 for an empty bin |
| ParameterMaps.PutAsWrittenAcceptsMismatch | MassCascadeCore/src/main/java/uk/ac/ebi/masscascade/parameters/ParameterMap.java:66-69 | as written, put lets a String into a Double parameter, which the intended check refuses |
| ParameterMaps.PutAsWrittenIgnoresDeclaredType | MassCascadeCore/src/main/java/uk/ac/ebi/masscascade/parameters/ParameterMap.java:66-69 | as written, put refuses only values whose class is Class or one of its supertypes, and the declared type does not matter except for Integer values |
| ParameterMaps.GetSucceeds | MassCascadeCore/src/main/java/uk/ac/ebi/masscascade/parameters/ParameterMap.java:82-92 | get succeeds exactly when the type rule holds, the key is present and the value casts to the requested type, and returns the stored value; an absent key fails |
| ParameterMaps.IntegerReadAsDouble | MassCascadeCore/src/main/java/uk/ac/ebi/masscascade/parameters/ParameterMap.java:84-91 | Double may be asked for an Integer parameter, but a stored Integer then fails the cast |
| ParameterMaps.PutThenGet | MassCascadeCore/src/main/java/uk/ac/ebi/masscascade/parameters/ParameterMap.java:62-92 | a value of the declared type is accepted, get returns it, and no other parameter's get changes |
| ParameterMaps.ParameterMap.constructor | MassCascadeCore/src/main/java/uk/ac/ebi/masscascade/parameters/ParameterMap.java:40-43 | the map starts empty |
| ParameterMaps.ParameterMap.FromMap | MassCascadeCore/src/main/java/uk/ac/ebi/masscascade/parameters/ParameterMap.java:50-53 | the map holds the given entries |
| ParameterMaps.ParameterMap.Put | MassCascadeCore/src/main/java/uk/ac/ebi/masscascade/parameters/ParameterMap.java:62-72 | an error exactly for a null parameter, a null value or a value of the wrong type (an Integer is allowed for a Double parameter); the map is unchanged on an error, else the one entry is set |
| ParameterMaps.ParameterMap.GetValue | MassCascadeCore/src/main/java/uk/ac/ebi/masscascade/parameters/ParameterMap.java:82-92 | the result is Get of the entries: the type-rule error, then the absent-key error, then the cast |
| ParameterMaps.ParameterMap.ContainsKey | MassCascadeCore/src/main/java/uk/ac/ebi/masscascade/parameters/ParameterMap.java:100-103 | a key not contained makes get fail with the absent-key error, and a contained value of the declared type is what get returns |
| ParameterMaps.ParameterMap.Clone | MassCascadeCore/src/main/java/uk/ac/ebi/masscascade/parameters/ParameterMap.java:108-111 | a new object with the same entries |
| MsnHelpers.AddScansContents | MassCascadeCore/src/main/java/uk/ac/ebi/masscascade/tracebuilder/ProfileMsnHelper.java:81-92 | after filing, a parent holds a child exactly when it did before or some scan with that index names that parent; a parentScan of −1 is never filed |
| MsnHelpers.AddScanLast | MassCascadeCore/src/main/java/uk/ac/ebi/masscascade/tracebuilder/ProfileMsnHelper.java:85-91 | the child's recorded precursor m/z is that of the scan filed last; other parents are untouched |
| MsnHelpers.LevelMapsCount | MassCascadeCore/src/main/java/uk/ac/ebi/masscascade/tracebuilder/ProfileMsnHelper.java:76-95 | there is one map per MSn level, MS1 levels being skipped |
| MsnHelpers.InitLoopAsWrittenState | MassCascadeCore/src/main/java/uk/ac/ebi/masscascade/tracebuilder/ProfileMsnHelper.java:73-95 | as written, the level loop keeps a single map and stays in bounds exactly while at most one MSn level has been read |
| MsnHelpers.InitAsWrittenAgrees | MassCascadeCore/src/main/java/uk/ac/ebi/masscascade/tracebuilder/ProfileMsnHelper.java:68-96 | as written, init succeeds exactly for fewer than two levels or at most one MSn level, and then matches the intended maps |
| MsnHelpers.InitAsWrittenFailsOnMs3 | MassCascadeCore/src/main/java/uk/ac/ebi/masscascade/tracebuilder/ProfileMsnHelper.java:73-79 | a container with MS1, MS2 and MS3 levels makes init as written index past its one map, where the intended maps have two |
| MsnHelpers.ChildrenLevels | MassCascadeCore/src/main/java/uk/ac/ebi/masscascade/tracebuilder/ProfileMsnHelper.java:123-136 | every (level, id) found lies between the starting level and the last map |
| MsnHelpers.DirectChildren | MassCascadeCore/src/main/java/uk/ac/ebi/masscascade/tracebuilder/ProfileMsnHelper.java:127-131 | at the first level searched, a child is found exactly when it is filed under the parent with precursor m/z within 0.001 of mz |
| MsnHelpers.DeeperChildren | MassCascadeCore/src/main/java/uk/ac/ebi/masscascade/tracebuilder/ProfileMsnHelper.java:125-135 | a deeper pair is found exactly when it is found from some direct child within tolerance, with that child's id and m/z |
| MsnHelpers.NoLevelsNoChildren | MassCascadeCore/src/main/java/uk/ac/ebi/masscascade/tracebuilder/ProfileMsnHelper.java:71-125 | a container of fewer than two levels has no maps, and no query finds children |
| MsnHelpers.ProfileMsnHelper.constructor | MassCascadeCore/src/main/java/uk/ac/ebi/masscascade/tracebuilder/ProfileMsnHelper.java:57-61 | the maps are those init builds from the levels |
| MsnHelpers.ProfileMsnHelper.Init | MassCascadeCore/src/main/java/uk/ac/ebi/masscascade/tracebuilder/ProfileMsnHelper.java:68-96 | the loops leave one map per MSn level (the first created before the loop), holding the scans filed under their parents; fewer than two levels leave none |
| MsnHelpers.ProfileMsnHelper.FileScans | MassCascadeCore/src/main/java/uk/ac/ebi/masscascade/tracebuilder/ProfileMsnHelper.java:81-92 | the scan loop leaves the map AddScans describes |
| MsnHelpers.ProfileMsnHelper.GetChildIds | MassCascadeCore/src/main/java/uk/ac/ebi/masscascade/tracebuilder/ProfileMsnHelper.java:106-113 | the result is the recursive search from level 0, keyed by 0-based level offsets within the maps |
| FeatureBins.ValuesSnoc | MassCascadeCore/src/main/java/uk/ac/ebi/masscascade/alignment/featurebins/FeatureBin.java:108-111 | one more add appends its field value to the values averaged |
| FeatureBins.MeanStep | MassCascadeCore/src/main/java/uk/ac/ebi/masscascade/alignment/featurebins/FeatureBin.java:108-111 | the update x + (v − x)/(n + 1) turns the mean of n values into the mean of the n + 1 values |
| FeatureBins.SeenSnoc | MassCascadeCore/src/main/java/uk/ac/ebi/masscascade/alignment/featurebins/FeatureBin.java:116-123 | one more add adds its container index to those seen |
| FeatureBins.IdMapLatest | MassCascadeCore/src/main/java/uk/ac/ebi/masscascade/alignment/featurebins/FeatureBin.java:123-200 | the id map holds exactly the container indices seen, each with the id of the last feature added under it |
| FeatureBins.FirstPositionsSnoc | MassCascadeCore/src/main/java/uk/ac/ebi/masscascade/alignment/featurebins/FeatureBin.java:116-122 | one more add is a first sighting of its group exactly when its container index is new |
| FeatureBins.GroupCountsAreFirstSeen | MassCascadeCore/src/main/java/uk/ac/ebi/masscascade/alignment/featurebins/FeatureBin.java:116-244 | a group's count is the number of container indices first seen with that group, 0 for a group never seen |
| FeatureBins.AddStep | MassCascadeCore/src/main/java/uk/ac/ebi/masscascade/alignment/featurebins/FeatureBin.java:106-126 | add keeps the fields those of the adds made: the four means, the id and group maps, the first trace and nFeatures one more than the adds |
| FeatureBins.FeatureBin.constructor | MassCascadeCore/src/main/java/uk/ac/ebi/masscascade/alignment/featurebins/FeatureBin.java:67-80 | all values zero, no adds, nFeatures 1, fileColumns zero columns |
| FeatureBins.FeatureBin.WithFeature | MassCascadeCore/src/main/java/uk/ac/ebi/masscascade/alignment/featurebins/FeatureBin.java:92-96 | the bin of exactly one add: its values are the feature's, and its column holds the intensity |
| FeatureBins.FeatureBin.Add | MassCascadeCore/src/main/java/uk/ac/ebi/masscascade/alignment/featurebins/FeatureBin.java:106-126 | within the columns: the means, maps, chromatogram and nFeatures are those of the adds so far, and the container's column holds the intensity; outside: fails after the means and chromatogram moved, with the maps, columns and nFeatures unchanged |
| FeatureBins.FeatureBin.Update | MassCascadeCore/src/main/java/uk/ac/ebi/masscascade/alignment/featurebins/FeatureBin.java:106-126 | the fields become Step of the old ones; an index outside the columns stops after the means moved |
| FeatureBins.FeatureBin.MoveMeans | MassCascadeCore/src/main/java/uk/ac/ebi/masscascade/alignment/featurebins/FeatureBin.java:108-113 | the four means move by (v − x)/nFeatures, the first feature's trace is recorded; nothing else changes |
| FeatureBins.FeatureBin.SetPresent | MassCascadeCore/src/main/java/uk/ac/ebi/masscascade/alignment/featurebins/FeatureBin.java:135-137 | exactly the one column changes; an index outside the columns fails and changes nothing |
| FeatureBins.FeatureBin.FeatureId | MassCascadeCore/src/main/java/uk/ac/ebi/masscascade/alignment/featurebins/FeatureBin.java:208-210 | there is an id exactly for a container index that was added (the source unboxes null otherwise) |
| FeatureBins.FeatureBin.NFeatures | MassCascadeCore/src/main/java/uk/ac/ebi/masscascade/alignment/featurebins/FeatureBin.java:227-229 | the number of distinct containers with a feature in the bin |
| FeatureBins.FeatureBin.NFeaturesOfGroup | MassCascadeCore/src/main/java/uk/ac/ebi/masscascade/alignment/featurebins/FeatureBin.java:237-244 | the number of containers first seen with that group, 0 for a group never seen |
| ReferenceSpectra.Choose | MassCascadeReference/src/main/java/uk/ac/ebi/masscascade/reference/ReferenceSpectrum.java:142-147 | a picked neighbour is a position of the peak list |
| ReferenceSpectra.ContainsIsFloor | MassCascadeReference/src/main/java/uk/ac/ebi/masscascade/reference/ReferenceSpectrum.java:137 | in a peak set, contains holds exactly when the floor of the signal has its m/z |
| ReferenceSpectra.MatchContained | MassCascadeReference/src/main/java/uk/ac/ebi/masscascade/reference/ReferenceSpectrum.java:137 | a contained signal returns a peak of its own m/z, whatever the tolerance |
| ReferenceSpectra.ChooseEmpty | MassCascadeReference/src/main/java/uk/ac/ebi/masscascade/reference/ReferenceSpectrum.java:145 | there is no neighbour exactly when the peak list is empty, and null is returned |
| ReferenceSpectra.ChooseMissing | MassCascadeReference/src/main/java/uk/ac/ebi/masscascade/reference/ReferenceSpectrum.java:142-147 | the chosen side is a missing one (a null dereference) exactly when the other side lies at least Double.MAX_VALUE away |
| ReferenceSpectra.ChooseNearest | MassCascadeReference/src/main/java/uk/ac/ebi/masscascade/reference/ReferenceSpectrum.java:139-147 | the chosen neighbour is the nearest of all peaks, and of two equally near the lower one |
| ReferenceSpectra.MatchNearest | MassCascadeReference/src/main/java/uk/ac/ebi/masscascade/reference/ReferenceSpectrum.java:135-150 | a returned peak is in the list, lies in the window [x − δ, x + δ) unless it is an exact hit, and no peak is nearer |
| ReferenceSpectra.MatchWindow | MassCascadeReference/src/main/java/uk/ac/ebi/masscascade/reference/ReferenceSpectrum.java:148-149 | away from an exact hit, the chosen neighbour is returned exactly when it lies in [x − δ, x + δ) with δ = x·ppm/10^6 |
| ReferenceSpectra.MatchingPeak | MassCascadeReference/src/main/java/uk/ac/ebi/masscascade/reference/ReferenceSpectrum.java:135-150 | no peaks give null; a returned peak is a peak of the list, with the signal's m/z or inside the ppm window |
| ReferenceSpectra.GetMatchingPeak | MassCascadeReference/src/main/java/uk/ac/ebi/masscascade/reference/ReferenceSpectrum.java:135-150 | getMatchingPeak gives null for an empty spectrum and otherwise only returns a peak of the spectrum |
| ReferenceContainers.FlattenCons | MassCascadeReference/src/main/java/uk/ac/ebi/masscascade/reference/ReferenceContainer.java:54 | the spectra of the map are those of the first bucket followed by those of the rest |
| ReferenceContainers.CollectCons | MassCascadeReference/src/main/java/uk/ac/ebi/masscascade/reference/ReferenceContainer.java:100-104 | the window collects the first bucket when its mass lies in it, then the rest |
| ReferenceContainers.InsertMasses | MassCascadeReference/src/main/java/uk/ac/ebi/masscascade/reference/ReferenceContainer.java:88-94 | after the put the keys are the old keys plus the spectrum's precursor mass |
| ReferenceContainers.InsertFiled | MassCascadeReference/src/main/java/uk/ac/ebi/masscascade/reference/ReferenceContainer.java:88-94 | after the put every spectrum still sits in the bucket of its own precursor mass |
| ReferenceContainers.InsertSorted | MassCascadeReference/src/main/java/uk/ac/ebi/masscascade/reference/ReferenceContainer.java:88-94 | after the put the keys stay strictly ascending, as a tree map's are |
| ReferenceContainers.InsertContents | MassCascadeReference/src/main/java/uk/ac/ebi/masscascade/reference/ReferenceContainer.java:88-94 | the put adds exactly the one spectrum to the stored spectra |
| ReferenceContainers.InsertLookup | MassCascadeReference/src/main/java/uk/ac/ebi/masscascade/reference/ReferenceContainer.java:88-93 | the put appends the spectrum to the list of its own mass and changes no other mass's list |
| ReferenceContainers.CollectOutside | MassCascadeReference/src/main/java/uk/ac/ebi/masscascade/reference/ReferenceContainer.java:100-104 | buckets all above the window yield nothing |
| ReferenceContainers.CollectMembers | MassCascadeReference/src/main/java/uk/ac/ebi/masscascade/reference/ReferenceContainer.java:100-104 | a spectrum is collected exactly when it is stored and its precursor mass lies in [lo, hi] |
| ReferenceContainers.CollectAscending | MassCascadeReference/src/main/java/uk/ac/ebi/masscascade/reference/ReferenceContainer.java:100-104 | the collected spectra come in ascending precursor mass |
| ReferenceContainers.SpectraAsWrittenReachesLow | MassCascadeReference/src/main/java/uk/ac/ebi/masscascade/reference/ReferenceContainer.java:99-101 | as written, a query at 500 with 10 ppm returns a spectrum of mass 100, outside the intended window 500 ± 0.005 |
| ReferenceContainers.SpectraRefused | MassCascadeReference/src/main/java/uk/ac/ebi/masscascade/reference/ReferenceContainer.java:100-101 | the intended window is refused by subMap exactly when precursorMass × ppm is negative |
| ReferenceContainers.SpectraWindow | MassCascadeReference/src/main/java/uk/ac/ebi/masscascade/reference/ReferenceContainer.java:97-107 | the intended query holds exactly the stored spectra within p·ppm/10^6 of p, in ascending mass |
| ReferenceContainers.ReferenceContainer.constructor | MassCascadeReference/src/main/java/uk/ac/ebi/masscascade/reference/ReferenceContainer.java:56-64 | the fields are set, with no ids and no spectra |
| ReferenceContainers.ReferenceContainer.AddSpectrum | MassCascadeReference/src/main/java/uk/ac/ebi/masscascade/reference/ReferenceContainer.java:79-95 | a held id is refused with nothing changed; otherwise the id is recorded and the spectrum filed under its mass, keeping the container invariant (sorted keys, ids those of the stored spectra, each once) |
| ReferenceContainers.ReferenceContainer.GetSpectra | MassCascadeReference/src/main/java/uk/ac/ebi/masscascade/reference/ReferenceContainer.java:97-107 | the loop over the buckets returns the intended window's spectra |
| ReferenceContainers.ReferenceContainer.RemoveAll | MassCascadeReference/src/main/java/uk/ac/ebi/masscascade/reference/ReferenceContainer.java:124-131 | both the map and the ids are emptied and the call reports success |
| ReferenceContainers.ReferenceContainer.Size | MassCascadeReference/src/main/java/uk/ac/ebi/masscascade/reference/ReferenceContainer.java:138-141 | the number of ids is the number of stored spectra |
| LazyLists.Page | MassCascadeVisualisation/src/main/java/uk/ac/ebi/masscascade/tables/lazytable/util/SimpleLazyList.java:159-162 | the page of a position under truncating division: for a positive page size, the page whose positions hold it |
| LazyLists.StartEnd | MassCascadeVisualisation/src/main/java/uk/ac/ebi/masscascade/tables/lazytable/util/SimpleLazyList.java:151-157 | the page interval starts at page × pageSize and ends a page later or at the size, whichever is less |
| LazyLists.PageHoldsIndex | MassCascadeVisualisation/src/main/java/uk/ac/ebi/masscascade/tables/lazytable/util/SimpleLazyList.java:146-157 | for a positive page size, a position below the size lies in its page's interval, which spans at most one page |
| LazyLists.NegativePageSizeFetchesNothing | MassCascadeVisualisation/src/main/java/uk/ac/ebi/masscascade/tables/lazytable/util/SimpleLazyList.java:151-162 | for a negative page size the interval is cut at the size and a position at or past the size is never in it |
| LazyLists.Filled | MassCascadeVisualisation/src/main/java/uk/ac/ebi/masscascade/tables/lazytable/util/SimpleLazyList.java:204-209 | after a fetch the positions of the interval hold the service's elements and the rest are as before |
| LazyLists.FillAgrees | MassCascadeVisualisation/src/main/java/uk/ac/ebi/masscascade/tables/lazytable/util/SimpleLazyList.java:204-209 | a fetch keeps every loaded slot equal to the service's element, loads what it covers and keeps what was loaded |
| LazyLists.InsertAgrees | MassCascadeVisualisation/src/main/java/uk/ac/ebi/masscascade/tables/lazytable/util/SimpleLazyList.java:105-109 | inserting the same element at the same position of the cache and the service keeps them in agreement |
| LazyLists.GetAsWrittenMissesShiftedEntry | MassCascadeVisualisation/src/main/java/uk/ac/ebi/masscascade/tables/lazytable/util/SimpleLazyList.java:151-201 | as written, after an insertion at the front of a ten-element list with pages of five, get(10) fetches the empty page [10, 10) and returns the missing-data marker |
| LazyLists.GetIntendedLoads | MassCascadeVisualisation/src/main/java/uk/ac/ebi/masscascade/tables/lazytable/util/SimpleLazyList.java:196-202 | with the page cut at the current cache size, get returns the service's element at every position, and fails outside the list |
| LazyLists.InitListCache | MassCascadeVisualisation/src/main/java/uk/ac/ebi/masscascade/tables/lazytable/util/SimpleLazyList.java:93-103 | the cache holds size missing-data markers (none for a negative size) |
| LazyLists.SimpleLazyList.constructor | MassCascadeVisualisation/src/main/java/uk/ac/ebi/masscascade/tables/lazytable/util/SimpleLazyList.java:52-64 | the list is over the service, its size recorded, with every slot unloaded |
| LazyLists.SimpleLazyList.Fetch | MassCascadeVisualisation/src/main/java/uk/ac/ebi/masscascade/tables/lazytable/util/SimpleLazyList.java:204-211 | the loop copies the service's elements of the interval into the cache, keeping it in agreement |
| LazyLists.SimpleLazyList.Get | MassCascadeVisualisation/src/main/java/uk/ac/ebi/masscascade/tables/lazytable/util/SimpleLazyList.java:196-202 | the result is the intended get: the loaded element, fetched first when missing; out of range fails; a loaded slot causes no fetch |
| LazyLists.SimpleLazyList.AddAt | MassCascadeVisualisation/src/main/java/uk/ac/ebi/masscascade/tables/lazytable/util/SimpleLazyList.java:105-109 | the element is inserted at the position in both the service and the cache, as loaded; a position past the end is refused with nothing changed |
| LazyLists.SimpleLazyList.Add | MassCascadeVisualisation/src/main/java/uk/ac/ebi/masscascade/tables/lazytable/util/SimpleLazyList.java:111-115 | the element is appended to both and the call reports true |
| LazyLists.SimpleLazyList.AddAll | MassCascadeVisualisation/src/main/java/uk/ac/ebi/masscascade/tables/lazytable/util/SimpleLazyList.java:117-124 | each element is appended in order to both, and the call reports true |
| LazyLists.SimpleLazyList.Size | MassCascadeVisualisation/src/main/java/uk/ac/ebi/masscascade/tables/lazytable/util/SimpleLazyList.java:268-271 | the number of slots equals the service's size and never falls below the size recorded |
| LazyLists.SimpleLazyList.IsEmpty | MassCascadeVisualisation/src/main/java/uk/ac/ebi/masscascade/tables/lazytable/util/SimpleLazyList.java:218-221 | empty exactly when the size is 0 |
| Compounds.CompoundEntity.constructor | MassCascadeChem/src/main/java/uk/ac/ebi/masscascade/compound/CompoundEntity.java:65-74 | the id, score and name are those given |
| Compounds.CompoundEntity.AddScore | MassCascadeChem/src/main/java/uk/ac/ebi/masscascade/compound/CompoundEntity.java:84-86 | the score grows by exactly the amount |
| Compounds.Rank | MassCascadeChem/src/main/java/uk/ac/ebi/masscascade/compound/CompoundSpectrum.java:74 | the copy holds each entity with its current score, in list order |
| Compounds.Entities | MassCascadeChem/src/main/java/uk/ac/ebi/masscascade/compound/CompoundSpectrum.java:91 | the entities of a ranked list, in its order |
| Compounds.InsertRanked | MassCascadeChem/src/main/java/uk/ac/ebi/masscascade/compound/CompoundSpectrum.java:75-89 | insertion adds one entry |
| Compounds.SortByScore | MassCascadeChem/src/main/java/uk/ac/ebi/masscascade/compound/CompoundSpectrum.java:75-89 | the sort keeps the length |
| Compounds.OfScoreAppend | MassCascadeChem/src/main/java/uk/ac/ebi/masscascade/compound/CompoundSpectrum.java:75-89 | the entries of one score in a concatenation are those of each part, in order |
| Compounds.InsertRankedContents | MassCascadeChem/src/main/java/uk/ac/ebi/masscascade/compound/CompoundSpectrum.java:75-89 | insertion adds exactly the entry to the contents |
| Compounds.InsertRankedDescending | MassCascadeChem/src/main/java/uk/ac/ebi/masscascade/compound/CompoundSpectrum.java:80-87 | insertion into a descending list keeps it descending by score |
| Compounds.InsertRankedOfScore | MassCascadeChem/src/main/java/uk/ac/ebi/masscascade/compound/CompoundSpectrum.java:86-89 | the entry goes behind every entry of its own score: the insertion is stable |
| Compounds.SortByScoreProperties | MassCascadeChem/src/main/java/uk/ac/ebi/masscascade/compound/CompoundSpectrum.java:75-89 | the sort is descending by score, a permutation of the copy, and keeps the order of equal scores (Collections.sort is stable) |
| Compounds.BestPrefix | MassCascadeChem/src/main/java/uk/ac/ebi/masscascade/compound/CompoundSpectrum.java:91 | the first k sorted entries are entities of the list, in descending current score |
| Compounds.CompoundSpectrum.constructor | MassCascadeChem/src/main/java/uk/ac/ebi/masscascade/compound/CompoundSpectrum.java:55-69 | no compounds, empty peak lists and maps, major peak and retention time 0 |
| Compounds.CompoundSpectrum.AddCompound | MassCascadeChem/src/main/java/uk/ac/ebi/masscascade/compound/CompoundSpectrum.java:154-156 | the entity is appended to the candidates |
| Compounds.CompoundSpectrum.GetBest | MassCascadeChem/src/main/java/uk/ac/ebi/masscascade/compound/CompoundSpectrum.java:72-92 | a negative number fails in subList; otherwise min(number, size) entities of the list, in descending score |
| Judges.AdductScore | MassCascadeChem/src/main/java/uk/ac/ebi/masscascade/brush/judge/IdentityRelationJudge.java:65-72 | the score is 0 exactly with no adducts, 50 exactly with one, and 100 exactly with two or more |
| Judges.SpectrumScore | MassCascadeChem/src/main/java/uk/ac/ebi/masscascade/brush/judge/IdentityRelationJudge.java:64-72 | a spectrum's score lies in [0, 100] |
| Judges.Listings | MassCascadeChem/src/main/java/uk/ac/ebi/masscascade/brush/judge/IdentityRelationJudge.java:62-76 | each spectrum is taken with its score and its candidates, in order |
| Judges.EntitiesOfContains | MassCascadeChem/src/main/java/uk/ac/ebi/masscascade/brush/judge/IdentityRelationJudge.java:74 | every candidate of a spectrum is among the entities the judge may change |
| Judges.BonusOfStranger | MassCascadeChem/src/main/java/uk/ac/ebi/masscascade/brush/judge/IdentityRelationJudge.java:74-76 | an entity no spectrum lists gains nothing |
| Judges.BonusOfSingle | MassCascadeChem/src/main/java/uk/ac/ebi/masscascade/brush/judge/IdentityRelationJudge.java:74-76 | an entity listed once in exactly one spectrum gains that spectrum's score |
| Judges.BonusBounds | MassCascadeChem/src/main/java/uk/ac/ebi/masscascade/brush/judge/IdentityRelationJudge.java:65-76 | an entity's gain is never negative and at most 100 per listing |
| Judges.ScaledCount | MassCascadeChem/src/main/java/uk/ac/ebi/masscascade/brush/judge/IdentityRelationJudge.java:75 | a score of at most 100 added c times is at most 100c |
| Judges.ListingStep | MassCascadeChem/src/main/java/uk/ac/ebi/masscascade/brush/judge/IdentityRelationJudge.java:74-76 | one more visit of the inner loop adds the score to the entity visited, once |
| Judges.BonusStep | MassCascadeChem/src/main/java/uk/ac/ebi/masscascade/brush/judge/IdentityRelationJudge.java:62-79 | one more spectrum adds its score once per listing of the entity |
| Judges.IdentityRelationJudge.constructor | MassCascadeChem/src/main/java/uk/ac/ebi/masscascade/brush/judge/IdentityRelationJudge.java:47 | removed starts at 0 |
| Judges.IdentityRelationJudge.Judge | MassCascadeChem/src/main/java/uk/ac/ebi/masscascade/brush/judge/IdentityRelationJudge.java:56-82 | every spectrum is kept, in order; removed is unchanged; each candidate's score grows by its spectra's scores, counted once per listing |
| Judges.IdentityRelationJudge.ScoreSpectrum | MassCascadeChem/src/main/java/uk/ac/ebi/masscascade/brush/judge/IdentityRelationJudge.java:64-76 | one pass adds the spectrum's score to each of its entities, once per listing, and nothing else |
| Judges.IdentityRelationJudge.AddToAll | MassCascadeChem/src/main/java/uk/ac/ebi/masscascade/brush/judge/IdentityRelationJudge.java:74-76 | the inner loop adds the score to each entity once per time it is listed |

## Left out

- RAWdump's COM lifecycle and vendor calls (CoInitialize, IXRawfile, SAFEARRAY/VARIANT release) belong to a closed DLL. Their results are inputs of `RawDump.RawDumpMain`.
- RAWdump reads `thermoFilterLine` after `delete[]` (RAWdump.cpp lines 144 and 182). Only the filter string's value is modelled.
- The OLE creation date, the formatting of doubles to text and the parsing of numbers, and UTF-8 decoding are parameters or abstract values. Floating-point rounding is not modelled.
- Base64 and Deflater/Inflater in ScanUtils are library calls. Only the little-endian byte layer is modelled, on `seq<byte>`.
- The XCaliburReader `call()` method, the operating-system process that runs RAWdump, and `setParameters` are left out. The reader consumes the emitted lines as a sequence.
- `LEDataInputStream` is abstracted, and `TextUtils` reads from an `InputStream` class over a byte sequence.
- ChartUtils.binValues with interpolation on is left out. It is floating-point extrapolation from the out-of-range neighbours.
- MathUtils getLeastSquares, getMeanY, getParabolaVertex and getMeanCenteredData are outside the modelled core.
- Concurrency is left out: SimpleLazyList's PendingRequestHandler thread, getAsynchronous, isRequested and the load listeners.
- The SimpleLazyList operations that throw UnsupportedOperationException are left out, as are `close` and the listener registration.
- `LazyListService` is modelled as the sequence of its elements. IndexInterval.java and LazyListService.java are not part of this model beyond that value.
- Java `int` overflow is left out in SimpleLazyList page arithmetic (`page * pageSize`) and in `CompoundEntity.addScore`. Integers are unbounded.
- DataUtils.getClosestKey's use of Double.MAX_VALUE as the distance of a missing neighbour is modelled as a constant. The overflow of `x - (-MAX_VALUE)` is not.
- MemoryRawContainer: `addScanList` is covered only through the stored-scan lists. Its equals, hashCode, size and plain getters are left out.
- The statistics of ProfileImpl closeFeature and closeProfile are left out. Features carry only the values a bin reads.
- BiehmanWindow's `c > noise · sqrt(m)` test is stated without square roots, by the signs and squares of both sides (`Biehman.Rises`). `Biehman.RisesIsComparison` proves that this agrees with the comparison against the root.
- `Arrays.sort` in RunningMedianSmoothing is modelled by an insertion sort with the same result. `Collections.sort` in getBest is modelled by a stable insertion sort, which gives the same order (Java's sort is stable).
- RunningMedianSmoothing's `call()` passes scans of levels other than MS1 through unchanged. That container loop is left out with the other `call()` drivers: the BaselineSubtraction container loop and ProfileSplitter `call()`.
- Matrices.Matrix.constructor: requires a non-empty rectangular array. A jagged Java array, whose rows have different lengths, is not modelled.
- Matrices.Matrix.Set, Matrices.Matrix.SwapRow, Matrices.Matrix.MultiplyRow and Matrices.Matrix.CombineRow: they require indices within the matrix, where Java throws ArrayIndexOutOfBoundsException. Rows are values, so two matrices never share a row array.
- Matrices.Matrix: the `double[][]` that set, swapRow, multiplyRow and combineRow fill in place is the field `values: seq<seq<real>>`, which each method reassigns. Java's swapRow swaps two row references and the other methods write array cells; the model states the same new contents but not the in-place array writes or any sharing of a row array with another matrix or caller.
- LinearSolving: the stores of exactly 1.0 and 0.0 after a scaling or a combination correct floating-point rounding in the source. Over the reals they are proved to change nothing.
- Traces.XYZTrace.FromList: it stores a copy of the given list. XYZTrace.java line 64 keeps the caller's list object, so a later add or push on the trace also changes the caller's list; that aliasing is not captured.
- ParameterMaps.ParameterMap.FromMap: it copies the given entries. The source's constructor keeps the caller's map object, so the two alias; a clone gets a new map in both.
- FeatureBins.FeatureBin.constructor: it takes a `nat` column count. A negative count, for which Java throws NegativeArraySizeException, is not modelled.
- FeatureBins.FeatureBin.WithFeature: it requires the container index to lie within the columns. The source's constructor throws from `add` otherwise.
- FeatureBin.isPresent is a plain array read and is not a separate member. The label and the plain getters are fields.
- Java class subtyping is reduced to each value's set of supertypes (`ParameterMaps.Value`).
- HashMultimap is modelled as a set of pairs (`CompoundSpectrum.indexToAdduct`, the child search of `MsnHelpers`). The CompoundSpectrum setters and getters are plain field access.
- ReferenceContainer's iterator and getDataFile, and the ReferenceSpectrum getters, are plain field access and are left out.
- The rule-set near-duplicates are left out for length: MemoryScanContainer, the featurebuilder ProfileSplitter and ProfileJoiner, MzBinning, MzFileBinning and the ProfileBin classes. So are the trace-matching builders (NoiseReduction, SequentialFeatureBuilder, ProfileBuilder, MSnBuilder, IsotopeDetectorRec, AdductDetector, FeatureBinGenerator).
- MathUtils.Median: requires a non-empty list. getMedian throws on an empty array, which `MathUtils.MedianAsWritten` models as a failure.
- XCalibur.Optimized: it cleans a data block with the corrected `ScanUtils.Cleaned`. XCaliburReader.java line 218 calls removeZeroAndDuplicateDataPoints as written, which rebuilds each kept point as (x, x) (first row of "## Findings"). A centroided block [(1, 0), (2, 5)] gives the point (2, 5) in the model and (2, 2) in the source.
- XCalibur.BlockPoints: the block's points are those of `XCalibur.Optimized`, so centroid-mode intensities are kept where the source replaces them by m/z.
- XCalibur.DataBlock: the scan it builds carries the points of `XCalibur.Optimized`, with the same gap.
- XCalibur.Run: the scans it emits are cleaned by `XCalibur.Optimized`, with the same gap.
- XCalibur.XCaliburReader.ReadBlock: it cleans the block with the corrected `ScanUtils.Cleaned`, not with `ScanUtils.RemoveZeroAndDuplicateDataPoints`, with the same gap.
- XCalibur.XCaliburReader.ReadDataPoints: the scan it stores is built from `XCalibur.XCaliburReader.ReadBlock`, with the same gap.
- XCalibur.XCaliburReader.StoreBlock: it stores the points `XCalibur.XCaliburReader.ReadBlock` cleaned, with the same gap.
- XCalibur.XCaliburReader.Step: a DATA POINTS line stores a scan cleaned by `XCalibur.Optimized`, with the same gap.
- XCalibur.XCaliburReader.ReadLines: the stored scans are those of `XCalibur.Run`, with the same gap.
- XCalibur.XCaliburReader.ReadRawDump: the container receives scans that keep their centroid-mode intensities, which the source replaces by m/z.
- Smoothing.SmoothStep: it uses the corrected `Smoothing.WindowMedian` (third row of "## Findings"). For the window [1, 2, 3] the source gives 2.5 and the model 2. For a window of one value the source reads past the end of its array and throws, while the model returns that value.
- Smoothing.RunningMedianSmoothing.GetMedian: it returns the corrected `Smoothing.WindowMedian`, with the same gap.
- Smoothing.RunningMedianSmoothing.SmoothScan: it smooths with the corrected median, with the same gap.
- Smoothing.RunningMedianSmoothing.SmoothScans: it smooths every MS1 scan with the corrected median, with the same gap.
- ReferenceContainers.ReferenceContainer.GetSpectra: it returns the corrected window [p − δ, p + δ] (fifth row of "## Findings"). The source queries subMap(δ − p, p + δ), which holds low masses such as 100 for a query at 500 with 10 ppm. It also throws IllegalArgumentException when δ − p > p + δ. `ReferenceContainers.SpectraAsWritten` models that query.
- ParameterMaps.ParameterMap.Put: it refuses values by the corrected `ParameterMaps.PutRejects` (eighth row of "## Findings"). The source stores a String under a Double parameter, as `ParameterMaps.PutAsWrittenAcceptsMismatch` shows.
- MsnHelpers.ProfileMsnHelper.constructor: it builds one map per MSn level with `MsnHelpers.ProfileMsnHelper.Init` (sixth row of "## Findings"). For a container with MS1, MS2 and MS3 levels the source throws IndexOutOfBoundsException, as `MsnHelpers.InitAsWrittenFailsOnMs3` shows.
- MsnHelpers.ProfileMsnHelper.Init: the map it adds for each MSn level after the first has no counterpart in the source. The source creates one map and reads map k for the k-th MSn level after MS1, counting from 0, so it throws from the second MSn level on.
- LazyLists.SimpleLazyList.Get: it cuts the page at the current cache size, not at the size fixed on construction (ninth row of "## Findings"). `LazyLists.GetAsWrittenMissesShiftedEntry` gives an input where the source returns the missing-data marker and the model the loaded element.
- RawContainers.MemoryRawContainer.AddScan: a new level stores a copy of the scan's m/z range. The source hands the scan's own ExtendableRange object to the level (MemoryRawContainer.java line 156) and widens it in place for later scans of that level (line 144). So after an MS1 scan with range [100, 200] and another with [50, 300], the first scan's getMzRange is [50, 300] in the source and stays [100, 200] in the model.
- RawContainers.MemoryRawContainer.FileScan: the scan it records keeps its own m/z range, so the aliasing described for `RawContainers.MemoryRawContainer.AddScan` is not captured.
- Splitter.ProfileSplitter.ExtractTraces: each emitted profile is closed by ProfileImpl.closeProfile (ProfileSplitter.java line 117). closeProfile dereferences a centre point that is set only when the base signal is an interior point (ProfileImpl.java lines 272-284). The base signal is the first point of highest intensity. So for every two-point profile, and every profile whose first point is its highest, the source stops with NullPointerException. For the trace [(1, 100, 5), (2, 100, 0)] the model emits one profile where the source aborts.
- File I/O and serialization are out of the modelled core: FileManager and the file containers, the CML/mzML/netCDF readers and writers, web services, task runners and UI.

## Findings

| source | as written | input that shows it | evidently intended | confidence | as-written member | corrected member |
|---|---|---|---|---|---|---|
| MassCascadeCore/src/main/java/uk/ac/ebi/masscascade/utilities/ScanUtils.java:143-146 | a kept point is rebuilt as `new XYPoint(x, x)`, so its intensity becomes its m/z | [(1, 0), (2, 5)] in centroid mode gives [(2, 2)] | the point is kept as (x, y) | high, not executed | `ScanUtils.RemoveZeroAndDuplicateDataPoints`, `ScanUtils.CleanedAsWrittenReplacesIntensity` | `ScanUtils.Cleaned`, `ScanUtils.CleanedKeepsIntensities`, used by `XCalibur` |
| MassCascadeCore/src/main/java/uk/ac/ebi/masscascade/utilities/math/MathUtils.java:253-255 | the rectangle's height is the previous z, so a falling segment counts its triangle on top of the higher side | (0, 2) to (1, 0) gives area 3; read backwards gives 1 | the rectangle under the lower side, min(z[i−1], z[i]), which gives 1 both ways | high, not executed | `MathUtils.GetTrapezoidArea`, `MathUtils.AreaAsWrittenFallingSegment` | `MathUtils.Area`, `MathUtils.AreaMirror` |
| MassCascadeCore/src/main/java/uk/ac/ebi/masscascade/smoothing/RunningMedianSmoothing.java:113-114 | the two middle values are averaged when the length is odd, and index length/2 + 1 is read | window [1, 2, 3] gives 2.5; [1, 2] gives 2; a window of one value reads index 1 of a one-element array | the middle value for odd lengths, the mean of the two middle values for even | high, not executed | `Smoothing.WindowMedianAsWritten`, `Smoothing.WindowMedianAsWrittenDiffers` | `Smoothing.WindowMedian`, `Smoothing.MedianSplitsWindow`, used by `Smoothing.RunningMedianSmoothing.GetMedian` |
| MassCascadeCore/src/main/java/uk/ac/ebi/masscascade/core/raw/ScanImpl.java:303-311 | the neighbours are compared by signed differences `x − mz`, so the lower neighbour always wins; a one-point scan queried below its point reads index −1 | points at 1, 2, 3 and mz 2.9 give the point at 2; a single point at 3 queried at 2 fails | the neighbour nearest to mz | high, not executed | `Scans.GetNearestPoint`, `Scans.NearestPointAsWrittenCounterexamples` | `Scans.NearestPoint`, `Scans.NearestIndexIsNearest` |
| MassCascadeReference/src/main/java/uk/ac/ebi/masscascade/reference/ReferenceContainer.java:99-101 | the sub-map starts at `delta − precursorMass` | a spectrum at mass 100, queried at 500 with 10 ppm, is returned | the window [p − δ, p + δ] | high, not executed | `ReferenceContainers.SpectraAsWritten`, `ReferenceContainers.SpectraAsWrittenReachesLow` | `ReferenceContainers.Spectra`, `ReferenceContainers.SpectraWindow`, used by `ReferenceContainers.ReferenceContainer.GetSpectra` |
| MassCascadeCore/src/main/java/uk/ac/ebi/masscascade/tracebuilder/ProfileMsnHelper.java:73-79 | one map is created before the level loop, and each MSn level reads `msnMap.get(msn)` | a container with MS1, MS2 and MS3 levels reads map 1 of a one-map list | one map per MSn level | high, not executed | `MsnHelpers.InitAsWritten`, `MsnHelpers.InitAsWrittenFailsOnMs3` | `MsnHelpers.InitMaps`, `MsnHelpers.ProfileMsnHelper.Init` |
| MassCascadeCore/src/main/java/uk/ac/ebi/masscascade/parameters/Constants.java:70-72 | `down` looks up `"MS" + (ms + 1)` for every level but MSn | MS4.down() looks for a constant MS5 and throws | MS4 goes down to MSn | medium, not executed | `Constants.DownAsWritten`, `Constants.DownAsWrittenFailsOnMS4` | `Constants.Down` |
| MassCascadeCore/src/main/java/uk/ac/ebi/masscascade/parameters/ParameterMap.java:66-69 | the test asks whether the declared type, a Class object, is an instance of the value's class | a String value put under a Double parameter is accepted | a value not of the declared type is refused, except an Integer for a Double | high, not executed | `ParameterMaps.PutRejectsAsWritten`, `ParameterMaps.PutAsWrittenAcceptsMismatch` | `ParameterMaps.PutRejects`, used by `ParameterMaps.ParameterMap.Put` |
| MassCascadeVisualisation/src/main/java/uk/ac/ebi/masscascade/tables/lazytable/util/SimpleLazyList.java:151-154 | the page interval is cut at the size recorded on construction, while add grows the cache | after one insertion at the front of a ten-element list with pages of five, get(10) fetches [10, 10) and returns the missing-data marker | the interval is cut at the current cache size | medium, not executed | `LazyLists.GetAsWritten`, `LazyLists.GetAsWrittenMissesShiftedEntry` | `LazyLists.GetIntended`, `LazyLists.GetIntendedLoads`, used by `LazyLists.SimpleLazyList.Get` |
| MassCascadeCore/src/main/java/uk/ac/ebi/masscascade/utilities/math/MathUtils.java:83-89 | an even length takes the element at length/2 alone, and the odd branch averages two equal indices | [1, 2] gives 2 | the mean of the two middle values for an even length | medium, not executed | `MathUtils.MedianAsWritten`, `MathUtils.MedianAsWrittenEvenCase` | `MathUtils.Median`, `MathUtils.MedianIsSymmetric` |
