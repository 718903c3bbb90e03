# Photo-to-KMZ converter: a Dafny model of its decision logic

The converter takes a batch of uploaded photographs (typically drone imagery)
and produces one Google Earth KMZ archive with a placemark per photograph that
carries GPS coordinates. This project models the four pure decisions in
`app.py` and proves properties of them:

- **GPS record extraction** (`extract_exif_info`, module `GpsExtraction`): the
  EXIF tags, taken as a map from tag name to tag, either yield a record
  (latitude and longitude from degree/minute/second rationals, as in section
  4.6.6 of Exif 2.3, signed by their reference tags; altitude, time, make and
  model with their defaults) or nothing.
- **Heading extraction** (`extract_img_direction`, modules `ByteScan`,
  `YawPatterns`, `Heading`): the `<x:xmpmeta` … `</x:xmpmeta>` span of the raw
  bytes is searched with four gimbal-yaw patterns in a fixed order, falling
  back to the EXIF `GPS GPSImgDirection` tag, and otherwise to None. Each
  pattern is `OPEN([^S]+)CLOSE` with CLOSE starting with S, which is modelled
  directly as "literal, maximal run of non-S characters, literal" together with
  a proof that this is exactly the regular-expression match.
- **Placemark selection** (`create_kmz`, module `Kmz`): icon and heading by
  heading presence, the `'N/A'` description line, coordinates in longitude,
  latitude, altitude order, one placemark per record in order, one `doc.kml`
  entry.
- **Batch partition** (the upload loop, module `Batch`): each upload lands in
  exactly one of the record list and the skipped list, order preserved; the
  conversion as a whole (module `Conversion`) builds the archive from the
  record list and counts the records with a heading.

Calls into libraries are parameters bundled in `Foreign.Libraries`: the
exifread tag reader, UTF-8 decoding with `errors='ignore'`, Python `float()` of
a string (partial), `round(x, 1)`, the PIL thumbnail plus base64 encoding
(partial), and lxml's acceptance test for text placed in the markup tree.
Rationals are converted to `real` exactly.

Behaviour of the code worth knowing:

- A record needs the two reference tags as well as the two coordinates: a
  missing `GPS GPSLatitudeRef` or `GPS GPSLongitudeRef` raises a `KeyError`,
  which the handler turns into None (`GpsExtraction.Resolvable`).
- A thumbnail that cannot be made for any one record, or a file name,
  date/time, make or model that lxml rejects (NUL or control characters),
  makes the whole `create_kmz` call fail, so no archive is produced for the
  batch (`Kmz.CreateKmz`, `Conversion.Convert`).
- The EXIF heading tier goes through `Fraction(values[0])`, which also
  accepts an integer, so a `GPS GPSImgDirection` stored as SHORT or LONG
  still gives a heading; the coordinate and altitude tags need rationals.
- If `float()` rejects the group of the first matching yaw pattern, the
  exception leaves the pattern loop: later patterns are never tried, and the
  EXIF tier decides.
- `GPS GPSAltitudeRef` is never read, so altitudes below sea level come out
  positive.

Observations proved about the code as written:

- `xmp_end` is `find(...) + 12`, never -1, so the guard `xmp_end != -1` is
  dead; with the end marker missing the span is `bytes[start:11]`, which is
  empty once `start >= 11`. This is harmless: at most eleven bytes decode to
  text shorter than the shortest possible match (19 characters), so the XMP
  tier yields nothing, as the guard intended (`Heading.MissingEndMarkerYieldsNoXmpHeading`).
- A heading of exactly 0.0 gets the directional icon but the description line
  `'N/A'`, because the description tests truthiness while the icon tests
  `is None` (`Kmz.NorthHeadingDescribedAsMissing`); the heading count at
  line 298 tests `is not None` and so counts it as a heading
  (`Conversion.CountWithDirection`).
- Every match of `drone-dji:GimbalYawDegree="…"` is also a match of
  `GimbalYawDegree="…"` ten characters later, with the same group
  (`YawPatterns.DjiAttributeImpliesPlainAttribute`). A consequence that no
  lemma states: the order of the two patterns can only matter when both
  spellings occur with different values.

## Model

| member | source | states |
|---|---|---|
| ByteScan.Find | app.py:99-100 | `bytes.find`: -1 exactly when the marker occurs nowhere, otherwise an index where it occurs with no occurrence before it |
| ByteScan.Slice | app.py:103 | Python slicing with non-negative bounds: both bounds clamped to the length, length `min(hi,n) - min(lo,n)` when positive and 0 otherwise, element `k` is `s[lo + k]` |
| GpsExtraction.Components | app.py:63-64 | the rational list converts exactly when every value is a rational with a non-zero denominator; element `i` is `num/den` of value `i` |
| GpsExtraction.Magnitude | app.py:63-67 | unsigned degrees are defined exactly when the list has at least three readable rationals, and then equal `d + m/60 + s/3600` of the first three |
| GpsExtraction.Altitude | app.py:74-77 | 0.0 when `GPS GPSAltitude` is absent; readable exactly when absent or its first value is a rational with non-zero denominator |
| GpsExtraction.TextOr | app.py:79-81 | the tag's printable text when present, `"Unknown"` otherwise |
| GpsExtraction.ExtractGps | app.py:50-93 | "no GPS" exactly when a coordinate tag is missing; a record exactly when both coordinates, both reference tags and any altitude are readable; `S` negates latitude and `W` longitude |
| GpsExtraction.ExtractExifInfo | app.py:50-93 | a record exists iff the tags are resolvable; None when either coordinate is missing; latitude and longitude are the magnitudes negated on `S` / `W`; altitude 0.0 or `num/den`, date/time, make and model each default to `"Unknown"` independently |
| GpsExtraction.MagnitudeWithinDegree | app.py:66-67 | for a canonical minutes/seconds pair the result lies in [degrees, degrees + 1) |
| GpsExtraction.NonNegativeMagnitude | app.py:63-67 | unsigned rationals give a non-negative magnitude |
| GpsExtraction.SignFollowsReference | app.py:60-72 | with unsigned rationals, ref `S`/`W` gives the negated magnitude (non-positive), any other ref the magnitude itself (non-negative); a negative coordinate implies the negating ref |
| GpsExtraction.NorthEastExample | app.py:57-90 | 25°0'0" N, 121°30'0" E with no other tags gives latitude 25.0, longitude 121.5, altitude 0.0 and `"Unknown"` text fields |
| YawPatterns.PatternsWellFormed | app.py:105-110 | each of the four patterns' closing literal starts with its excluded character, so the regex reading applies to all of them |
| YawPatterns.RunEnd | app.py:106-109 | the greedy `[^S]+` run: every character before the end differs from S, and the end is the text's end or an S |
| YawPatterns.MatchAt | app.py:105-109 | a match at a position has a non-empty group free of the excluded character, and OPEN, group, CLOSE occur there |
| YawPatterns.MatchAtIff | app.py:105-109 | conversely, OPEN + g + CLOSE at a position with `g` non-empty and free of S is a match with group `g` (both directions) |
| YawPatterns.Search | app.py:113 | `re.search`: a reported hit is a match, and no position before it (or none at all, when nothing is reported) matches |
| YawPatterns.FirstHit | app.py:105-116 | the patterns are tried in list order: the chosen pattern's search succeeds with the reported group, every earlier pattern's search fails, and no hit means every pattern fails |
| YawPatterns.DjiAttributeImpliesPlainAttribute | app.py:106-107 | each match of the prefixed attribute pattern is a match of the bare one ten characters later, with the same group |
| YawPatterns.ShortTextHasNoYaw | app.py:105-113 | no pattern matches text shorter than 19 characters |
| Heading.XmpEnd | app.py:100 | `xmp_end` is at least 11 and never -1; exactly 11 when the end marker is missing, otherwise just past the first occurrence of it (none starts earlier) |
| Heading.XmpSpan | app.py:99-103 | the XMP tier runs exactly when the start marker is present, regardless of the end marker, and scans `bytes[start:xmp_end]` |
| Heading.XmpHeading | app.py:98-118 | a heading only when the start marker exists, some pattern matches and `float` accepts the first matching pattern's group; the value is the rounded parse of that group |
| Heading.ExifHeading | app.py:120-130 | a heading exactly when `GPS GPSImgDirection` is present and its first value is a rational with non-zero denominator or an integer; then the rounded value of it |
| Heading.ExtractImgDirection | app.py:95-132 | the XMP value when there is one, else the EXIF tier's result; None exactly when both tiers fail, never an error |
| Heading.XmpTierShadowsExif | app.py:112-128 | once the XMP tier yields a heading, replacing the EXIF tag reader does not change the result |
| Heading.UnreadableFirstYawFallsBackToExif | app.py:112-128 | an unparsable group in the first matching pattern hands the decision to the EXIF tier, whatever later patterns hold |
| Heading.MissingEndMarkerSpan | app.py:99-103 | with the end marker missing the span is `bytes[start:11]`: at most 11 bytes, empty when `start >= 11` |
| Heading.MissingEndMarkerYieldsNoXmpHeading | app.py:99-116 | with the end marker missing, and decoding not lengthening text, the XMP tier yields nothing |
| Heading.EndMarkerBeforeStartGivesEmptySpan | app.py:99-103 | an end marker lying before the start marker gives an empty span |
| Kmz.DirectionLine | app.py:172 | `'N/A'` exactly when the heading is None or 0.0; otherwise the heading itself |
| Kmz.BuildPlacemark | app.py:140-176 | name is the file name; coordinates are longitude, latitude, altitude; camera icon iff no heading and heading 0.0, directional icon iff heading with heading passed through; scale 1; description `'N/A'` iff heading None or 0.0; the description's date/time, make, model and coordinates are the record's, and its thumbnail is the one given |
| Kmz.NorthHeadingDescribedAsMissing | app.py:141-172 | a 0.0 heading gets the directional icon and heading 0.0 but the description `'N/A'` |
| Kmz.Placemarks | app.py:139-177 | one placemark per record, in record order, each built from that record; no document iff some record's thumbnail cannot be made or lxml rejects its file name, date/time, make or model |
| Kmz.CreateKmz | app.py:134-188 | success iff every thumbnail can be made and lxml accepts every record's text; then exactly one entry `doc.kml` with one placemark per record in order, named by file name, at (lon, lat, alt), and each placemark is the one built from its record and that record's thumbnail |
| Batch.Visit | app.py:256-276 | an upload yields a record iff its GPS record extracts; the record keeps the upload's name and bytes and the heading found for those bytes |
| Batch.VisitUpload | app.py:259-276 | the loop body: a record exactly when the GPS record extracts, equal to the reference step (heading looked up only then) |
| Batch.Absorb | app.py:256-276 | one pass of the loop takes the lists of a prefix to the lists of the prefix one upload longer, and adds exactly one entry to one of them |
| Batch.ProcessBatch | app.py:247-276 | the loop's two lists equal the reference record and skipped lists (records of the uploads that have one, names of those that do not, each in upload order) and their lengths sum to the number of uploads |
| Batch.RecordsSnoc | app.py:256-276 | appending an upload appends its record (if any) to the record list and its name (if no record) to the skipped list |
| Batch.ListsAreFlatMaps | app.py:247-276 | the two lists equal the generic in-order collection of each upload's contribution |
| Batch.PartitionCounts | app.py:247-276 | the record and skipped lists together are exactly as long as the upload list |
| Batch.PartitionAppend | app.py:251-276 | both lists of a concatenation are the concatenations of the lists: order is preserved |
| Batch.SingleUpload | app.py:259-276 | a single upload goes to the record list iff its GPS extracts, and to the skipped list otherwise |
| Conversion.CountWithDirection | app.py:298 | at most the number of records; zero iff no record has a heading; all iff every record has one |
| Conversion.CountWithDirectionAppend | app.py:298 | the heading count of a concatenation is the sum of the counts: it counts records one by one, whatever their order |
| Conversion.HeadingCountMatchesIcons | app.py:139-177 | over placemarks drawn one per record with the directional icon exactly for records with a heading, the heading count equals the number of directional icons |
| Conversion.DirectionCountMatchesIcons | app.py:298 | the heading count equals the number of placemarks drawn with the directional icon |
| Conversion.Convert | app.py:247-338 | an archive is produced iff at least one upload has a record and the archive can be built from exactly those records, and then it is that archive and the heading count is that of those records; the skipped list is the reference one; "no GPS photos" iff every upload was skipped; on success the archive has one entry with as many placemarks as records, records plus skipped equal uploads, and the heading count equals the directional placemarks |

## Left out

- exifread's parsing of the raw bytes: its output is the parameter `Libraries.exifTags`; an exception raised by `process_file` itself, and payload details beyond "rational list, integer list or other", are not modelled.
- UTF-8 decoding with `errors='ignore'` is the parameter `Libraries.decodeUtf8`; only the property that it does not produce more characters than bytes is assumed, and only in `Heading.MissingEndMarkerYieldsNoXmpHeading`.
- Binary floating point: `float(num) / float(den)` and the degree sums are exact `real` arithmetic; `float()` of the captured group and `round(x, 1)` are the parameters `Libraries.parseFloat` and `Libraries.round1`.
- Heading.ExifHeading: an ASCII-typed `GPS GPSImgDirection` payload is taken as unreadable, although `Fraction()` would parse its first character when that is a digit; the standard stores this tag as a rational.
- Kmz.Placemarks: lxml checks the whole description string; the model checks its three free-text fields (date/time, make, model), taking the fixed labels, formatted numbers and base64 text as always accepted.
- Kmz.CreateKmz: the same per-field reading of lxml's check of the description string.
- The `:.4f` / `:.1f` formatting of the coordinate string and description; placemarks carry the unformatted values.
- PIL decoding, `thumbnail((1000, 1000))`, the JPEG re-encode and base64 are the partial parameter `Libraries.thumbnail`.
- The lxml/pykml markup tree, its serialisation, and the DEFLATE zip container: the archive is its list of entries and each document its placemark sequence.
- The Streamlit interface: page set-up, styling, file preview, progress bar, status texts (including the truthiness test on the heading at lines 266-269 and 323), the download button and the summary panel; `st.error` messages and the traceback display.
