# ParkRadar core, modelled in Dafny

ParkRadar is an iOS app that shows, on a map around the user, public parking lots
("safe" areas) and fixed enforcement cameras ("danger" areas, no-parking zones).
This project models the logic under that map and proves properties of the model:

- **Indexing records** (`SafeParkingArea.dfy`, `NoParkingArea.dfy`, `ParkedLocation.dfy`).
  Each stored record gets integer search indices: truncated thousandths of a degree for
  parking lots, rounded thousandths for cameras, rounded ten-thousandths for the saved
  parking spot. The records also get a 5-character geohash. The file also covers the DTO
  mappers ("Y"/"N" flags, a coordinate that arrives as text or as a number, 0 as the
  fallback).
- **Schema migration** (`RealmSchema.dfy`). The 0 → 1 migration re-indexes every stored
  record at ten-thousandths of a degree.
- **Box queries** (`Repository.dfy`). Records whose indices lie in a ±0.01° box around a
  centre, both ends inclusive.
- **Geohash clustering** (`Grouping.dfy`, `Clustering.dfy`, `SetUnitCache.dfy`). Above an
  altitude of 10 000 the map shows one pin per 5-character geohash bucket. A pin carries
  the bucket's size and the mean of its coordinates. The cache computes the buckets once
  and keeps them.
- **The main screen's view model** (`MainViewModel.dfy`). It switches between raw pins and
  bucket pins, applies the two filters, and de-duplicates the first word of an address.
- **The older screen's view model** (`LegacyViewModel.dfy`). It has a zoom gate at 3000 and
  lists the 20 parking lots nearest the centre.
- **The cluster badge** (`ClusterAnnotationView.dfy`). The number drawn on a cluster of
  bucket pins.
- **Annotation diffing and filter toggles** on the main map (`MainViewController.dfy`).
- **The bottom sheet's snap-step machine**, in both copies (`BottomSheet.dfy`).
- **The widget** (`WidgetProvider.dfy`). It picks the latest saved spot and writes the
  elapsed-time text.
- **The hex colour initialiser** (`ColorHex.dfy`).

Swift's numeric operations are spelled out in `Numerics.dfy`:

- `Int(x)` rounds toward zero (`Trunc`).
- `.rounded()` rounds half away from zero (`RoundHalfAway`).
- `Int /` on a positive divisor rounds toward zero (`TruncDiv`).
- `"\(n)"` is `Decimal`, with a parse-back partner.

Library functions whose code is not part of this model are function-valued parameters:

- `Geohash.encode`;
- `Double(String)`;
- `Scanner.scanHexInt64`.

Repository results that the shown code does not compute are inputs, given as sequences of
records:

- the cluster queries;
- the altitude-dependent area queries.

Realm objects are classes whose methods modify their fields. Queries and aggregations are
functions that read those objects.

## Model

| member | source | states |
|---|---|---|
| Numerics.Trunc | ParkRadar/Data/Realm/Object/SafeParkingArea.swift:94-95 | `Int(x)` for a Double: the integer within 1 of x on x's side of zero (toward zero) |
| Numerics.RoundHalfAway | ParkRadar/Data/Realm/Object/NoParkingArea.swift:53-54 | `.rounded()`: within ½ of x, ties away from zero |
| Numerics.TruncMonotone | ParkRadar/Data/Repository.swift:21-24 | truncation is monotone, which is what orders the query bounds |
| Numerics.RoundHalfAwayMonotone | ParkRadar/Data/Realm/Scheme/RealmScheme.swift:39-40 | rounding half away from zero is monotone |
| Numerics.TruncDiv | ParkRadarWidget/Provider/ParkedLocationProvider.swift:58 | Swift `Int /` for a positive divisor: quotient toward zero, remainder of the dividend's sign and smaller than the divisor |
| Numerics.NatDigitsRoundTrip | ParkRadar/Presentation/Map/ClusterAnnotation.swift:22 | the decimal digits of n read back as n |
| Numerics.Decimal | ParkRadar/Presentation/Map/ClusterAnnotation.swift:22 | `"\(n)"`: reading the text back yields n |
| Numerics.DecimalInjective | ParkRadar/Presentation/Map/ClusterAnnotation.swift:22 | different integers never print the same |
| Numerics.ParseDecimalRejects | ParkRadar/Presentation/Map/ClusterAnnotation.swift:22 | a text with a non-digit after the first position is no number |
| SafeParkingAreas.SafeParkingArea.constructor | ParkRadar/Data/Realm/Object/SafeParkingArea.swift:159-185 | a record holds exactly the given fields and nil search fields |
| SafeParkingAreas.SafeParkingArea.PrepareIndexing | ParkRadar/Data/Realm/Object/SafeParkingArea.swift:92-97 | a nil coordinate changes nothing; otherwise latIndex/lngIndex are `Trunc(c*1000)` and geohash is `encode(lat, lng, 5)` |
| SafeParkingAreas.ToRealmObject | ParkRadar/Data/Realm/Object/SafeParkingArea.swift:158-190 | a fresh object with every DTO field copied, each flag true iff its text is exactly "Y", indexed iff both coordinates are present, else nil indices |
| NoParkingAreas.NoParkingArea.constructor | ParkRadar/Data/Realm/Object/NoParkingArea.swift:39-57 | fields as given; latInt/lngInt are `RoundHalfAway(c*1000)`; geohash of length 5 |
| NoParkingAreas.NoParkingArea.PrepareIndexing | ParkRadar/Data/Realm/Object/NoParkingArea.swift:59-63 | afterwards the indices agree with the coordinates; on an already indexed object nothing changes (idempotent after the initialiser) |
| NoParkingAreas.CoordinateIndex | ParkRadar/Data/Realm/Object/NoParkingArea.swift:53-54 | `Int((c * 1000).rounded())`: within half a unit of c·1000, with the sign of c |
| NoParkingAreas.StringOrDouble.Value | ParkRadar/Data/Realm/Object/NoParkingArea.swift:129-136 | a number is its own value; text is what `Double(str)` makes of it; only text can fail |
| NoParkingAreas.NoParkingAreaDTO.Latitude | ParkRadar/Data/Realm/Object/NoParkingArea.swift:71 | the coerced latitude: the number sent, or the parsed text, or 0 when it does not coerce |
| NoParkingAreas.NoParkingAreaDTO.Longitude | ParkRadar/Data/Realm/Object/NoParkingArea.swift:72 | the same for the longitude |
| NoParkingAreas.Decode | ParkRadar/Data/Realm/Object/NoParkingArea.swift:138-150 | a JSON number decodes as `.double`, a string as `.string`, anything else is a type mismatch |
| NoParkingAreas.Encode | ParkRadar/Data/Realm/Object/NoParkingArea.swift:152-160 | each case encodes as its own JSON kind |
| NoParkingAreas.DecodeEncode | ParkRadar/Data/Realm/Object/NoParkingArea.swift:138-160 | decoding what was encoded gives the value back |
| NoParkingAreas.EncodeDecode | ParkRadar/Data/Realm/Object/NoParkingArea.swift:138-160 | encoding what was decoded gives the JSON back |
| NoParkingAreas.DtoCoordinates | ParkRadar/Data/Realm/Object/NoParkingArea.swift:71-72 | a DTO coordinate is the number sent, the parsed text, or 0 when the text does not parse |
| NoParkingAreas.ToRealmObject | ParkRadar/Data/Realm/Object/NoParkingArea.swift:84-93 | a fresh object with address, district and description copied, the coerced coordinates, and indexed |
| ParkedLocations.ParkedLocation.constructor | ParkRadar/Data/Realm/Object/ParkedLocation.swift:21-31 | fields as given, savedDate the given date, latInt/lngInt `RoundHalfAway(c*10000)` |
| RealmSchema.MigrateNoParking | ParkRadar/Data/Realm/Scheme/RealmScheme.swift:33-41 | every no-parking record gets `RoundHalfAway(c*10000)` indices |
| RealmSchema.MigrateSafe | ParkRadar/Data/Realm/Scheme/RealmScheme.swift:43-51 | every parking lot with both coordinates gets `RoundHalfAway(c*10000)` indices; one with a nil coordinate keeps its old ones |
| RealmSchema.Migrate | ParkRadar/Data/Realm/Scheme/RealmScheme.swift:29-54 | from version ≥ 1 no object changes; below 1 only the index fields are rewritten; geohash and every other field stay |
| RealmSchema.MigratedIndexAboveQueryBox | ParkRadar/Data/Realm/Scheme/RealmScheme.swift:39 | for latitudes from 0.01° up, a migrated index lies above every box the query builds at that latitude |
| Repository.QueryBox | ParkRadar/Data/Repository.swift:21-24 | the bounds are ordered for every centre and the box holds the centre's own truncated indices |
| Repository.SafeWithin | ParkRadar/Data/Repository.swift:26-30 | exactly the stored lots whose indices are both present and inside the box, inclusive |
| Repository.GetSafeArea | ParkRadar/Data/Repository.swift:20-36 | a record is returned iff both its indices are present and within the inclusive box; every result is a stored record |
| Repository.DangerWithin | ParkRadar/Data/Repository.swift:43-47 | exactly the stored cameras whose latInt/lngInt are inside the box |
| Repository.GetDangerArea | ParkRadar/Data/Repository.swift:37-50 | a camera is returned iff its latInt/lngInt lie in the same inclusive box |
| Repository.SafeCentreFound | ParkRadar/Data/Repository.swift:21-30 | a lot whose indices are the centre's truncated indices is always found |
| Repository.IndexedSafeAreaFound | ParkRadar/Data/Repository.swift:21-30 | a lot indexed by `prepareIndexing` is found by a query centred on its own coordinates |
| Grouping.Prefix | ParkRadar/Presentation/Views/Main/SetUnitCache.swift:71 | `prefix(n)`: a prefix of length min(n, \|s\|) |
| Grouping.DistinctKeys | ParkRadar/Presentation/Views/Main/SetUnitCache.swift:70-72 | each key of the input once, and only those |
| Grouping.Members | ParkRadar/Presentation/Views/Main/SetUnitCache.swift:70-72 | a group holds exactly the elements filed under its key |
| Grouping.GroupBy | ParkRadar/Presentation/Views/Main/SetUnitCache.swift:70-72 | `Dictionary(grouping:)`: keys distinct, one group for each key present and only those, each holding exactly its key's elements |
| Grouping.GroupByShape | ParkRadar/Presentation/Views/Main/SetUnitCache.swift:70-72 | one non-empty group per distinct key, holding exactly that key's elements |
| Grouping.GroupByPartitions | ParkRadar/Presentation/Views/Main/SetUnitCache.swift:70-72 | the groups together hold the input's elements, nothing lost or duplicated (as multisets) |
| Grouping.GroupSizesSum | ParkRadar/Presentation/Views/Main/SetUnitCache.swift:70-72 | the group sizes add up to the number of elements |
| Clustering.SafeKey | ParkRadar/Presentation/Views/Main/SetUnitCache.swift:71 | a lot's bucket key is the first `precision` characters of its geohash, or "" when it has none |
| Clustering.DangerKey | ParkRadar/Presentation/Views/Main/SetUnitCache.swift:83 | a camera's bucket key is the first `precision` characters of its geohash |
| Clustering.Latitudes | ParkRadar/Presentation/Views/Main/SetUnitCache.swift:33 | `compactMap` of the latitudes: one entry per present latitude, adding up to their sum, each some site's latitude; empty iff none present |
| Clustering.Longitudes | ParkRadar/Presentation/Views/Main/SetUnitCache.swift:34 | the same for the longitudes |
| Clustering.Centroid | ParkRadar/Presentation/Views/Main/ViewModel.swift:163-167 | each coordinate is the mean of the group's present values (count times mean is their sum), 0 when there are none |
| Clustering.SafeEntries | ParkRadar/Presentation/Views/Main/ViewModel.swift:157-160 | each lot, in order, under the key of its first 5 geohash characters ("" without a geohash), with its coordinates |
| Clustering.DangerEntries | ParkRadar/Presentation/Views/Main/ViewModel.swift:179-181 | each camera, in order, under the key of its first 5 geohash characters, with its coordinates |
| Clustering.Summaries | ParkRadar/Presentation/Views/Main/ViewModel.swift:157-173 | one summary per distinct key and only those, each at the centroid of its key's records and counting them |
| Clustering.Summarise | ParkRadar/Presentation/Views/Main/SetUnitCache.swift:32-40 | one summary per group: the mean coordinate, the group size and the key |
| Clustering.SumCountsSummarise | ParkRadar/Presentation/Views/Main/SetUnitCache.swift:32-40 | the summary counts add up to the group sizes |
| Clustering.SummariesPartition | ParkRadar/Presentation/Views/Main/SetUnitCache.swift:31-40 | keys distinct; a summary per key present; each count is that key's record count and positive; the counts add up to the number of records |
| Clustering.CentroidLatitudeWithin | ParkRadar/Presentation/Views/Main/SetUnitCache.swift:33 | a bucket's latitude lies between its members' smallest and largest latitudes |
| Clustering.CentroidLongitudeWithin | ParkRadar/Presentation/Views/Main/SetUnitCache.swift:34 | the same for longitude |
| Clustering.CentroidWithoutLatitudes | ParkRadar/Presentation/Views/Main/SetUnitCache.swift:33 | a bucket without any latitude sits at latitude 0 |
| SetAnnotations.Average | ParkRadar/Presentation/Map/Annotations/ClusterUnit/SetAnnotation.swift:86-91 | 0 for an empty collection, otherwise the value that times the count is the sum |
| SetAnnotations.SumBounds | ParkRadar/Presentation/Map/Annotations/ClusterUnit/SetAnnotation.swift:89 | a sum of values in [lo, hi] lies in [n·lo, n·hi] |
| SetAnnotations.AverageBounds | ParkRadar/Presentation/Map/Annotations/ClusterUnit/SetAnnotation.swift:86-91 | the mean of values in [lo, hi] lies in [lo, hi] |
| SetAnnotations.CountTitle | ParkRadar/Presentation/Map/Annotations/ClusterUnit/SetAnnotation.swift:23-25 | `"\(count)개"` ends in 개 and reads back as the count |
| SetAnnotations.CountTitleInjective | ParkRadar/Presentation/Map/Annotations/ClusterUnit/SetAnnotation.swift:61-63 | different counts never show the same title |
| SetAnnotations.DangerSetAnnotation.Title | ParkRadar/Presentation/Map/Annotations/ClusterUnit/SetAnnotation.swift:23-25 | the title reads back as the count |
| SetAnnotations.SafeSetAnnotation.Title | ParkRadar/Presentation/Map/Annotations/ClusterUnit/SetAnnotation.swift:61-63 | the title reads back as the count |
| ClusterAnnotations.ClusterAnnotation.Title | ParkRadar/Presentation/Map/ClusterAnnotation.swift:21-23 | the title reads back as the count |
| SetUnitCaching.SafeSets | ParkRadar/Presentation/Views/Main/SetUnitCache.swift:35-39 | one "safeSet" pin per summary with its coordinate and count |
| SetUnitCaching.DangerSets | ParkRadar/Presentation/Views/Main/SetUnitCache.swift:55-59 | one "dangerSet" pin per summary with its coordinate and count |
| SetUnitCaching.SafeSetsCountEveryRecord | ParkRadar/Presentation/Views/Main/SetUnitCache.swift:26-44 | the safe pins' counts add up to the number of records fetched |
| SetUnitCaching.DangerSetsCountEveryRecord | ParkRadar/Presentation/Views/Main/SetUnitCache.swift:46-64 | the danger pins' counts add up to the number of records fetched |
| SetUnitCaching.SetUnitCache.constructor | ParkRadar/Presentation/Views/Main/SetUnitCache.swift:21-24 | an empty cache over the given repository and precision |
| SetUnitCaching.SetUnitCache.WithDefaultPrecision | ParkRadar/Presentation/Views/Main/SetUnitCache.swift:21 | the default precision is 5 |
| SetUnitCaching.SetUnitCache.GetSafeCluster | ParkRadar/Presentation/Views/Main/SetUnitCache.swift:66-76 | the stored buckets when present, otherwise the buckets of the repository's records, which are then stored |
| SetUnitCaching.SetUnitCache.GetDangerCluster | ParkRadar/Presentation/Views/Main/SetUnitCache.swift:78-88 | the same for cameras |
| SetUnitCaching.SetUnitCache.GetSafeSummaries | ParkRadar/Presentation/Views/Main/SetUnitCache.swift:26-44 | a stored result is returned with nothing changed; otherwise the pins of the buckets, which are stored; nothing is ever cleared |
| SetUnitCaching.SetUnitCache.GetDangerSummaries | ParkRadar/Presentation/Views/Main/SetUnitCache.swift:46-64 | the same for cameras |
| SetUnitCaching.SafeSummariesAreMemoised | ParkRadar/Presentation/Views/Main/SetUnitCache.swift:26-44 | two calls return the same pins even when the repository changed in between, and their counts total the first records |
| SetUnitCaching.DangerSummariesAreMemoised | ParkRadar/Presentation/Views/Main/SetUnitCache.swift:46-64 | the same for cameras |
| MainViewModel.ClusterPins | ParkRadar/Presentation/Views/Main/ViewModel.swift:163-172 | one bucket pin per summary carrying its coordinate and count |
| MainViewModel.BucketPins | ParkRadar/Presentation/Views/Main/ViewModel.swift:154-195 | safe bucket pins first while that filter is on, then danger bucket pins while theirs is, one per summary with its coordinate and count |
| MainViewModel.CameraOutput | ParkRadar/Presentation/Views/Main/ViewModel.swift:125-196 | raw pins and bucket pins are never both emitted; at or below 10000 no buckets and each kind's nearby pins while its filter is on; above it no raw pins and the bucket pins of the 5-character summaries; a filter that is off emits [] |
| MainViewModel.BucketPinOrder | ParkRadar/Presentation/Views/Main/ViewModel.swift:154-195 | bucket pins are safe ones only with the safe filter on and danger ones only with the danger filter on, safe ones first |
| MainViewModel.PinCountsAppend | ParkRadar/Presentation/Views/Main/ViewModel.swift:154-195 | pin counts add over concatenation |
| MainViewModel.ClusterPinsCount | ParkRadar/Presentation/Views/Main/ViewModel.swift:163-172 | the pins' counts are the summaries' counts |
| MainViewModel.ZoomedOutPinsCountRecords | ParkRadar/Presentation/Views/Main/ViewModel.swift:146-195 | zoomed out, the bucket counts add up to the records of each kind whose filter is on |
| MainViewModel.SafeFilterOutput | ParkRadar/Presentation/Views/Main/ViewModel.swift:90-106 | above 10000 the safe toggle emits nothing; otherwise the pins or [] by the filter |
| MainViewModel.DangerFilterOutput | ParkRadar/Presentation/Views/Main/ViewModel.swift:108-119 | the danger toggle always emits the pins or [] by the filter |
| MainViewModel.FilterSinksAgreeWithCamera | ParkRadar/Presentation/Views/Main/ViewModel.swift:90-141 | zoomed in, the toggles emit what the camera sink emits |
| MainViewModel.DangerToggleShowsPinsWhenZoomedOut | ParkRadar/Presentation/Views/Main/ViewModel.swift:108-119 | zoomed out, the camera emits no danger pins but the danger toggle does, while the safe toggle emits nothing |
| MainViewModel.SplitJoin | ParkRadar/Presentation/Views/Main/ViewModel.swift:247-254 | splitting words joined by single spaces gives the words back |
| MainViewModel.Split | ParkRadar/Presentation/Views/Main/ViewModel.swift:247 | `split(separator: " ")`: every piece is a non-empty word without a space |
| MainViewModel.DropDoubledFirst | ParkRadar/Presentation/Views/Main/ViewModel.swift:249-251 | the first word is dropped exactly when the first two words are equal |
| MainViewModel.Join | ParkRadar/Presentation/Views/Main/ViewModel.swift:251-254 | `joined(separator: " ")`: "" for no words; the first word opens the text, followed by a space when more come |
| MainViewModel.JoinSingleSpaced | ParkRadar/Presentation/Views/Main/ViewModel.swift:251-254 | words joined by a space give single-spaced text: no space at either end, never two in a row |
| MainViewModel.CheckDuplicateText | ParkRadar/Presentation/Views/Main/ViewModel.swift:242-255 | as written: "" gives ""; a non-empty text with fewer than two words traps; otherwise the words with a doubled first word removed, single-spaced |
| MainViewModel.CheckDuplicateTextTrapsOnOneWord | ParkRadar/Presentation/Views/Main/ViewModel.swift:249 | a one-word address traps at `arr[1]` |
| MainViewModel.DeduplicateAddress | ParkRadar/Presentation/Views/Main/ViewModel.swift:242-255 | corrected: never traps, drops a doubled first word, single-spaced, and agrees with the original whenever that does not trap |
| MainViewModel.AddressOutputAsWritten | ParkRadar/Presentation/Views/Main/ViewModel.swift:74-79 | as written: no address sends nothing; a found address is sent through `checkDuplicateText`, and traps exactly when that does |
| MainViewModel.AddressOutput | ParkRadar/Presentation/Views/Main/ViewModel.swift:74-79 | corrected sink (the second Findings row): an address is emitted iff geocoding gave one, without a doubled first word and single-spaced; the same as the sink as written wherever that does not trap |
| LegacyViewModel.IsZoomedIn | ParkRadar/Presentation/ViewModel.swift:114 | the zoom gate is strict: below 3000, and exactly 3000 counts as zoomed out |
| LegacyViewModel.FilterOutput | ParkRadar/Presentation/ViewModel.swift:75-105 | the filter sinks emit the pins or [] by the filter when zoomed in, and [] otherwise |
| LegacyViewModel.SquaredDistance | ParkRadar/Presentation/ViewModel.swift:131-133 | `dLat² + dLng²` is never negative and 0 only at the centre |
| LegacyViewModel.Insert | ParkRadar/Presentation/ViewModel.swift:136 | inserting into a sorted list keeps it sorted and adds exactly the element |
| LegacyViewModel.SortByDistance | ParkRadar/Presentation/ViewModel.swift:136 | sorted by distance and a permutation of the input |
| LegacyViewModel.Candidates | ParkRadar/Presentation/ViewModel.swift:127-129 | corrected filter: exactly the lots with both indices present |
| LegacyViewModel.CandidatesMultiplicity | ParkRadar/Presentation/ViewModel.swift:127-129 | corrected filter: each lot with both indices kept as often as it occurs, every other one dropped |
| LegacyViewModel.RankAll | ParkRadar/Presentation/ViewModel.swift:130-135 | each candidate with its squared index distance to the centre |
| LegacyViewModel.TakeNearest | ParkRadar/Presentation/ViewModel.swift:136-137 | the first min(20, n) of the sorted ranking |
| LegacyViewModel.NearestRanked | ParkRadar/Presentation/ViewModel.swift:123-138 | sorted by distance, min(20, candidates) long, all from the query result |
| LegacyViewModel.Nearest | ParkRadar/Presentation/ViewModel.swift:126-138 | min(20, candidates) lots, each from the input with both indices present |
| LegacyViewModel.NearestKeepsTheNearest | ParkRadar/Presentation/ViewModel.swift:126-138 | every candidate left out is at least as far as every one listed |
| LegacyViewModel.CandidatesAsWritten | ParkRadar/Presentation/ViewModel.swift:127-129 | as written: the filter keeps every lot with a latIndex, whatever its lngIndex |
| LegacyViewModel.NearestAsWritten | ParkRadar/Presentation/ViewModel.swift:126-138 | as written: traps on the nil unwrap iff some input lot has a latIndex but no lngIndex, and is the corrected list otherwise |
| LegacyViewModel.NearestAsWrittenTraps | ParkRadar/Presentation/ViewModel.swift:128-132 | such a lot reaches the force unwrap at line 132 |
| LegacyViewModel.NearestAsWrittenSafeOnQueryResults | ParkRadar/Presentation/ViewModel.swift:117-138 | on what the box query returns, the code as written agrees with the corrected one |
| LegacyViewModel.CameraOutput | ParkRadar/Presentation/ViewModel.swift:111-153 | zoomed out all outputs are empty and no nearby list is sent; zoomed in the pins are the box query results of each kind whose filter is on, and the nearby list is the nearest 20 or fewer of the safe query results |
| ClusterAnnotationViews.CountType | ParkRadar/Presentation/Map/Annotations/Common/CircularClusterAnnotation.swift:117-122 | at most the number of members; positive iff a member has the type (the only use the badge makes of it) |
| ClusterAnnotationViews.CountOfType | ParkRadar/Presentation/Map/Annotations/Common/CircularClusterAnnotation.swift:112-123 | 0 for a non-cluster annotation; traps iff a member is no `RadarAnnotaion` (a bucket pin or a raw parking-lot pin); otherwise positive iff a member has the type |
| ClusterAnnotationViews.BadgeFor | ParkRadar/Presentation/Map/Annotations/Common/CircularClusterAnnotation.swift:22-75 | a single pin gives no badge; a cluster traps iff a member is no `RadarAnnotaion`; otherwise the safe-bucket total in the safe colour if a safe bucket is present, else the danger-bucket total in red if a danger bucket is, else the member count, in the safe colour iff a raw parking-lot pin is present |
| ClusterAnnotationViews.ClusterAnnotationView.Count | ParkRadar/Presentation/Map/Annotations/Common/CircularClusterAnnotation.swift:112-123 | the counting loop computes `CountOfType` |
| ClusterAnnotationViews.ClusterAnnotationView.PrepareForDisplay | ParkRadar/Presentation/Map/Annotations/Common/CircularClusterAnnotation.swift:22-75 | the badge: safe-bucket total in the safe colour, else danger-bucket total in red, else the member count (safe colour if a raw parking-lot pin is present, red otherwise); traps on a member that is no `RadarAnnotaion`; a single pin draws nothing new |
| ClusterAnnotationViews.RawPinTraps | ParkRadar/Presentation/Map/Annotations/Common/CircularClusterAnnotation.swift:117-119 | a cluster holding a member that is no `RadarAnnotaion`, such as a camera pin, traps |
| ClusterAnnotationViews.BadgeIsATotalOrPinCount | ParkRadar/Presentation/Map/Annotations/Common/CircularClusterAnnotation.swift:33-73 | a non-empty cluster that does not trap shows a bucket total or the number of raw parking-lot pins; never the red member count |
| ClusterAnnotationViews.SafePinClusterBadge | ParkRadar/Presentation/Map/Annotations/Common/CircularClusterAnnotation.swift:67-69 | a cluster of raw parking-lot pins only shows their number in the safe colour |
| ClusterAnnotationViews.SafeMembersTotal | ParkRadar/Presentation/Map/Annotations/Common/CircularClusterAnnotation.swift:39-45 | the safe total of safe bucket pins is the sum of their counts |
| ClusterAnnotationViews.SafeBucketsBadge | ParkRadar/Presentation/Map/Annotations/Common/CircularClusterAnnotation.swift:33-50 | safe buckets take precedence: danger members add nothing to the safe total shown |
| ClusterAnnotationViews.SafeSetTotalIgnoresDangers | ParkRadar/Presentation/Map/Annotations/Common/CircularClusterAnnotation.swift:40-45 | members of other types contribute nothing to the safe sum |
| MainViewController.OfKind | ParkRadar/Presentation/Views/Main/ViewController.swift:183 | the coordinates of the pins of one type |
| MainViewController.ToAdd | ParkRadar/Presentation/Views/Main/ViewController.swift:185-187 | exactly the new coordinates no shown pin of the type has |
| MainViewController.ToRemove | ParkRadar/Presentation/Views/Main/ViewController.swift:189-191 | exactly the shown coordinates of the type that no new pin has |
| MainViewController.WithoutRemoved | ParkRadar/Presentation/Views/Main/ViewController.swift:193 | exactly the pins not of the type at a removed coordinate remain |
| MainViewController.KeptOverlays | ParkRadar/Presentation/Views/Main/ViewController.swift:195-202 | exactly the overlays that are not circles centred on a removed coordinate remain |
| MainViewController.RadiusFor | ParkRadar/Presentation/Views/Main/ViewController.swift:206 | 1800 m around a bucket pin, `zoneRadius` (50 m) around any other |
| MainViewController.AfterUpdate | ParkRadar/Presentation/Views/Main/ViewController.swift:181-194 | every pin of another type stays; the type's pins stand at exactly the wanted coordinates |
| MainViewController.UpdateShowsExactlyTheNewPins | ParkRadar/Presentation/Views/Main/ViewController.swift:181-212 | afterwards the type's pins stand at exactly the new coordinates |
| MainViewController.UpdateKeepsOtherKinds | ParkRadar/Presentation/Views/Main/ViewController.swift:183-193 | the pins of every other type are unchanged; their order is the one the model keeps (removal filters, additions are appended), which MapKit does not promise |
| MainViewController.UpdateIsIdempotent | ParkRadar/Presentation/Views/Main/ViewController.swift:185-191 | repeating the same update leaves the pins as they are |
| MainViewController.OverlaysAfterUpdate | ParkRadar/Presentation/Views/Main/ViewController.swift:195-211 | circles at removed coordinates go; one circle per added pin comes, 1800 m for bucket pins and 50 m otherwise |
| MainViewController.MapView.UpdateAnnotations | ParkRadar/Presentation/Views/Main/ViewController.swift:181-212 | the new pins and overlays are those the diff describes |
| MainViewController.MapView.AddCircles | ParkRadar/Presentation/Views/Main/ViewController.swift:206-211 | the loop appends exactly one circle of the radius per added coordinate, in order |
| MainViewController.FilterSubjects.ToggleSafeFilter | ParkRadar/Presentation/Views/Main/ViewController.swift:532-543 | sends and stores the negation of the current value |
| MainViewController.FilterSubjects.ToggleDangerFilter | ParkRadar/Presentation/Views/Main/ViewController.swift:545-556 | sends and stores the negation of the current value |
| BottomSheets.SnapHeights | ParkRadar/Presentation/Views/Main/MultiStepBottomSheet.swift:150-154 | three offsets, increasing, within the superview's height |
| BottomSheets.NextStep | ParkRadar/Presentation/Views/Main/MultiStepBottomSheet.swift:181-189 | an upward swipe moves one step up with floor 0, any other one step down with ceiling count−1; always within [0, count−1] |
| BottomSheets.DragOffset | ParkRadar/Presentation/Views/Main/MultiStepBottomSheet.swift:177-180 | `max(base + translation, 0)`: never negative, follows the finger while it is |
| BottomSheets.SwipeDirection | ParkRadar/Presentation/Views/Main/MultiStepBottomSheet.swift:181-193 | an upward swipe never lowers the sheet, a downward one never raises it; two swipes reach the end |
| BottomSheets.MultiStepBottomSheet.constructor | ParkRadar/Presentation/Views/Main/MultiStepBottomSheet.swift:18-142 | the step starts at 2 with no heights yet; the label shows the placeholder "현재장소: 서울특별시 도봉대로 231-565" |
| BottomSheets.MultiStepBottomSheet.Attach | ParkRadar/Presentation/Views/Main/MultiStepBottomSheet.swift:145-163 | three heights from the superview's height; the offset starts at `sheetHeights[2]` |
| BottomSheets.MultiStepBottomSheet.HandlePan | ParkRadar/Presentation/Views/Main/MultiStepBottomSheet.swift:171-200 | no superview: nothing; changed: drag offset; ended or cancelled: next step and its height; other states: nothing; the step stays in range |
| BottomSheets.MultiStepBottomSheet.MakeAvailableParkedInfoButton | ParkRadar/Presentation/Views/Main/MultiStepBottomSheet.swift:259-263 | hidden iff a location is saved, interactive iff not |
| BottomSheets.MultiStepBottomSheet.UpdateCurrentAddress | ParkRadar/Presentation/Views/Main/MultiStepBottomSheet.swift:255-257 | the label shows the address as given |
| BottomSheets.LegacyLocationText | ParkRadar/Presentation/MultiStepBottomSheet.swift:199-201 | "현재장소: " followed by the address |
| BottomSheets.LegacyLocationTextInjective | ParkRadar/Presentation/MultiStepBottomSheet.swift:199-201 | different addresses never give the same label |
| BottomSheets.LegacyBottomSheet.constructor | ParkRadar/Presentation/MultiStepBottomSheet.swift:18-99 | the step starts at 2 with no heights yet; the label shows the same placeholder |
| BottomSheets.LegacyBottomSheet.Attach | ParkRadar/Presentation/MultiStepBottomSheet.swift:102-120 | three heights; the offset starts at `sheetHeights[2]` |
| BottomSheets.LegacyBottomSheet.HandlePan | ParkRadar/Presentation/MultiStepBottomSheet.swift:128-157 | the same step machine as the current sheet |
| BottomSheets.LegacyBottomSheet.UpdateCurrentAddress | ParkRadar/Presentation/MultiStepBottomSheet.swift:199-201 | the label is the prefixed address |
| ParkedLocationWidget.LatestIndex | ParkRadarWidget/Provider/ParkedLocationProvider.swift:42 | the record with the latest savedDate (the first of equals); none iff there are no records |
| ParkedLocationWidget.ElapsedMinutes | ParkRadarWidget/Provider/ParkedLocationProvider.swift:58 | the whole minutes in the interval since the saved date, rounded toward zero for a date in the past and in the future alike |
| ParkedLocationWidget.ElapsedText | ParkRadarWidget/Provider/ParkedLocationProvider.swift:59-71 | "{m}분경과", "{h}시간경과" or "{h}시간 {m}분경과", which read back as the minutes |
| ParkedLocationWidget.MinutesTextRoundTrip | ParkRadarWidget/Provider/ParkedLocationProvider.swift:61-62 | "{m}분경과" reads back as m minutes |
| ParkedLocationWidget.HoursTextRoundTrip | ParkRadarWidget/Provider/ParkedLocationProvider.swift:66-67 | "{h}시간경과" reads back as h·60 minutes |
| ParkedLocationWidget.HoursMinutesTextRoundTrip | ParkRadarWidget/Provider/ParkedLocationProvider.swift:68-69 | "{h}시간 {m}분경과" reads back as h·60 + m minutes |
| ParkedLocationWidget.ElapsedTextInjective | ParkRadarWidget/Provider/ParkedLocationProvider.swift:59-71 | different minute counts never show the same text |
| ParkedLocationWidget.ElapsedTextShowsHours | ParkRadarWidget/Provider/ParkedLocationProvider.swift:63-70 | from an hour on the text leads with the hours, and ends in "시간경과" iff the minutes are a whole hour |
| ParkedLocationWidget.FetchEntry | ParkRadarWidget/Provider/ParkedLocationProvider.swift:40-106 | with no store or no record the empty entry; otherwise the latest record's title, elapsed text and coordinate, marked as present |
| ParkedLocationWidget.GetTimeline | ParkRadarWidget/Provider/ParkedLocationProvider.swift:32-38 | one entry, refreshed 15 minutes after now |
| ColorHex.Trim | ParkRadar/Resource/DesignSystem/Extension/UIColor+Extension.swift:24 | a contiguous stretch of the input, with only white space dropped around it |
| ColorHex.TrimIdempotent | ParkRadar/Resource/DesignSystem/Extension/UIColor+Extension.swift:24 | trimming twice is trimming once |
| ColorHex.Upper | ParkRadar/Resource/DesignSystem/Extension/UIColor+Extension.swift:24 | letter by letter upper case, length kept |
| ColorHex.UpperIdempotent | ParkRadar/Resource/DesignSystem/Extension/UIColor+Extension.swift:24 | upper-casing twice is upper-casing once |
| ColorHex.Red | ParkRadar/Resource/DesignSystem/Extension/UIColor+Extension.swift:30 | the red channel, bits 16 to 23, is a byte |
| ColorHex.Green | ParkRadar/Resource/DesignSystem/Extension/UIColor+Extension.swift:31 | the green channel, bits 8 to 15, is a byte |
| ColorHex.Blue | ParkRadar/Resource/DesignSystem/Extension/UIColor+Extension.swift:32 | the blue channel, bits 0 to 7, is a byte |
| ColorHex.Component | ParkRadar/Resource/DesignSystem/Extension/UIColor+Extension.swift:30-33 | `CGFloat(c) / 255`: in [0, 1], and 255 times it gives the byte back |
| ColorHex.ChannelsAreBytes | ParkRadar/Resource/DesignSystem/Extension/UIColor+Extension.swift:30-32 | the masks and shifts pick the three low base-256 digits |
| ColorHex.ChannelsRoundTrip | ParkRadar/Resource/DesignSystem/Extension/UIColor+Extension.swift:30-32 | a value below 2^24 is its channels packed back together |
| ColorHex.HighBitsIgnored | ParkRadar/Resource/DesignSystem/Extension/UIColor+Extension.swift:30-32 | bits above the lowest 24 never reach the colour |
| ColorHex.ColorFromHex | ParkRadar/Resource/DesignSystem/Extension/UIColor+Extension.swift:23-35 | alpha 1; each component in [0, 1] and 255 times it is its channel; a failed scan gives black |
| ColorHex.ColorIgnoresCaseAndSpace | ParkRadar/Resource/DesignSystem/Extension/UIColor+Extension.swift:24 | surrounding white space and letter case make no difference |

## Left out

- UI layout, drawing, animation and styling are not modelled. This covers views, the badge drawing (`drawRatio`), the filter buttons' colours and the sheet's animation. They are rendering.
- Combine plumbing is left out: subjects, debounce, `sink` wiring and the live Realm observation. Each sink is modelled as the function of its inputs that it emits.
- Network, geocoding and authorisation are left out. They are wrappers over system services; the geocoded address is an input.
- File and database I/O is left out: the Realm store, seed loading and the dynamic-key `NoParkingAreaResponse` decoding. The store is a sequence of record objects passed in.
- The repository methods that the shown code calls but does not define are inputs:
  - the altitude-dependent area queries;
  - `getClosestParkingAreas`;
  - `isCurrentLocationDangerous`;
  - the two cluster queries.
- `Repository.SafeWithin` and `Repository.DangerWithin` promise membership in both directions and that every result is stored, but not the order of the results or that each object appears once. Realm does not specify the order of a query result either.
- `ObjectId` primary keys are not modelled. Nothing shown depends on them.
- Doubles are exact reals. IEEE rounding error is not modelled, and neither are the traps of `Int(x)` when x is out of range or NaN.
- `Numerics.TruncDiv`: only positive divisors are modelled, which is the only kind the source uses.
- Swift leaves the iteration order of `Dictionary(grouping:)` unspecified. The model fixes first-appearance order, so `MainViewModel.CameraOutput` and `Clustering.Summaries` list buckets in that order. The properties proved about the buckets (keys, counts, centroids) do not depend on it.
- MapKit does not specify the order of `MKMapView.annotations`. The model keeps the annotations as a sequence that removal filters and addition appends to; the order `MainViewController.UpdateKeepsOtherKinds` preserves is that choice, not a MapKit promise.
- `sorted(by:)` is not promised to be stable. The model sorts stably, so `LegacyViewModel.TakeNearest` fixes one order among equally distant lots.
- Groups and the cluster cache hold value snapshots (`Site`) of the records rather than the records themselves. Later changes to a cached record's fields are therefore not seen through the cache.
- Swift compares `String`s by Unicode canonical equivalence and `split` works on grapheme clusters. The model compares and splits code point by code point, so `MainViewModel.CheckDuplicateText` can differ from the source on texts with combining marks or differently normalised forms.
- The annotation objects (`SafeAnnotation(from:)`, `DangerAnnotation(from:)`) are not modelled. Their initialisers cannot fail, so the pins sent are one per area in order, and `LegacyViewModel.CameraOutput` sends the areas themselves. On the main screen the nearby pins come from queries that are not part of this model and are inputs.
- `ColorHex.Trim` covers ASCII white space, U+0085 and U+00A0. It does not cover every Unicode white-space character.
- `ColorHex.Upper` maps only the Latin letters a–z, which are the only letters a hexadecimal text uses.
- The widget's map snapshot is not modelled. A stored record always has both coordinates, so the entry's coordinate is always present and the nil branch (ParkedLocationProvider.swift:94-104) is never taken.
- `ParkedLocationWidget.GetTimeline` treats "15 minutes later" as 900 seconds, ignoring calendar effects.
- `ParkedLocationWidget.LatestIndex` breaks ties between equal dates by taking the first. Realm does not promise an order among equal dates.
- `BottomSheets.MultiStepBottomSheet.Attach` models the superview by its height alone. The gesture delegate's hit test is not modelled.
- Which annotation types adopt `RadarAnnotaion` is only partly visible. The two bucket pins declare it (SetAnnotation.swift:12, 49). The raw parking-lot pin must adopt it elsewhere, because CircularClusterAnnotation.swift:31 instantiates `count(annotationType:)` with it. That conformance is not part of this model. The model takes the raw camera pin and every other annotation as non-conforming, so a cluster holding one traps.

## Findings

| source | as written | input that shows it | evidently intended | confidence | as-written member | corrected member |
|---|---|---|---|---|---|---|
| ParkRadar/Presentation/ViewModel.swift:128 | the nearest-lot filter tests `latIndex != nil` twice, so a lot with a latIndex and a nil lngIndex reaches `obj.lngIndex!` at line 132 and traps | a lot with latIndex = Some(37566) and lngIndex = None among the candidates | test `lngIndex != nil` in the second conjunct | not executed; latent, because the box query never returns a lot with a nil index (`LegacyViewModel.NearestAsWrittenSafeOnQueryResults`) | LegacyViewModel.NearestAsWritten | LegacyViewModel.Nearest |
| ParkRadar/Presentation/Views/Main/ViewModel.swift:249 | `checkDuplicateText` reads `arr[1]` (and `arr[0]`) without checking the word count | a one-word address such as "서울특별시", or an address of spaces only | compare the first two words only when there are two | not executed | MainViewModel.CheckDuplicateText | MainViewModel.DeduplicateAddress |

## Observations

These follow from the model but are not claimed as bugs:

- **Migration scale.** The 0 → 1 migration writes indices at ten-thousandths of a degree, rounded (RealmScheme.swift:39-40, 49-50). Indexing and the box query use thousandths, truncated. For every latitude from 0.01° up, a migrated record lies outside the box of a query centred on the record itself (`RealmSchema.MigratedIndexAboveQueryBox`) until it is indexed again. A query centred about ten times farther out can still find it.
- **Danger toggle when zoomed out.** On the main screen the safe toggle emits nothing above altitude 10000 (ViewModel.swift:100-104). The danger toggle always emits raw pins (ViewModel.swift:114-116). So toggling it while zoomed out puts raw danger pins next to the bucket pins (`MainViewModel.DangerToggleShowsPinsWhenZoomedOut`).
- **Attach resets the offset.** `attach` always starts the sheet at `sheetHeights[2]`, whatever `currentStep` is.
- **Negative elapsed time.** A saved date at least a minute in the future gives a negative elapsed time, shown as "-{m}분경과"; one less than a minute ahead shows "0분경과" (`ParkedLocationWidget.ElapsedMinutes` rounds toward zero both ways).
