/**
 The output of `exifread.process_file(..., details=False)`, taken as given: a
 finite map from tag names to tags. A tag has a printable form (what `str(tag)`
 yields) and a payload, which for the GPS tags is a list of rationals.
 */
module ExifTags {

  datatype Ratio = Ratio(num: int, den: int)

  /** Rational payloads are the ones the GPS group uses. Integer payloads
      (SHORT, LONG) have no `.num` or `.den`, but `Fraction()` accepts their
      values. Any other payload (ASCII, bytes) is lumped together. */
  datatype TagValues = Ratios(items: seq<Ratio>) | Integers(ints: seq<int>) | NonRational

  datatype Tag = Tag(printable: string, values: TagValues)

  type TagMap = map<string, Tag>

  const LatitudeKey := "GPS GPSLatitude"
  const LatitudeRefKey := "GPS GPSLatitudeRef"
  const LongitudeKey := "GPS GPSLongitude"
  const LongitudeRefKey := "GPS GPSLongitudeRef"
  const AltitudeKey := "GPS GPSAltitude"
  const DateTimeKey := "Image DateTime"
  const MakeKey := "Image Make"
  const ModelKey := "Image Model"
  const ImgDirectionKey := "GPS GPSImgDirection"

  /** `float(r.num) / float(r.den)`, taken exactly. */
  function RatioValue(r: Ratio): real
    requires r.den != 0
  {
    r.num as real / r.den as real
  }

  /** The tag's first value can be read as a number: it is a rational with a
      non-zero denominator. */
  predicate FirstRatioReadable(t: Tag)
  {
    t.values.Ratios? && |t.values.items| > 0 && t.values.items[0].den != 0
  }
}
