/**
 `extract_exif_info`: the GPS record of one photograph, read from its EXIF tags.
 Latitude and longitude are stored as degrees, minutes and seconds, three
 rationals each (Exif 2.3, section 4.6.6); the record exists only when both can
 be resolved.
 */
module GpsExtraction {
  import opened Options
  import opened ExifTags

  datatype GeoRecord = GeoRecord(
    datetime: string,
    latitude: real,
    longitude: real,
    altitude: real,
    make: string,
    model: string)

  /** The three ways the Python function ends: no GPS group (the normal
      "skip" case), an exception caught by the handler (a missing reference
      tag, a short or non-rational coordinate list, a zero denominator), or a
      record. The first two both surface as `None`. */
  datatype GpsOutcome = NoGps | Malformed | Located(record: GeoRecord)

  /** The tag's payload can be turned into a degrees/minutes/seconds triple:
      every value of the list is a rational with a non-zero denominator (the
      whole list is converted before indexing) and there are at least three. */
  predicate DmsReadable(t: Tag)
  {
    && t.values.Ratios?
    && |t.values.items| >= 3
    && forall i :: 0 <= i < |t.values.items| ==> t.values.items[i].den != 0
  }

  /** The source's precondition for a record, stated independently of the
      extraction: both coordinates and both reference tags present, both
      coordinates readable, and the altitude readable when present. */
  predicate Resolvable(tags: TagMap)
  {
    && LatitudeKey in tags && LongitudeKey in tags
    && LatitudeRefKey in tags && LongitudeRefKey in tags
    && DmsReadable(tags[LatitudeKey]) && DmsReadable(tags[LongitudeKey])
    && (AltitudeKey in tags ==> FirstRatioReadable(tags[AltitudeKey]))
  }

  /** The list `[float(x.num) / float(x.den) for x in tag.values]`; None where
      the comprehension raises. */
  function Components(t: Tag): (r: Option<seq<real>>)
    ensures r.Some? <==> t.values.Ratios? && forall i :: 0 <= i < |t.values.items| ==> t.values.items[i].den != 0
    ensures r.Some? ==> |r.value| == |t.values.items|
    ensures r.Some? ==> forall i :: 0 <= i < |r.value| ==> r.value[i] == RatioValue(t.values.items[i])
  {
    match t.values
    case NonRational => None
    case Integers(_) => None
    case Ratios(items) =>
      if forall i :: 0 <= i < |items| ==> items[i].den != 0
      then Some(seq(|items|, i requires 0 <= i < |items| => RatioValue(items[i])))
      else None
  }

  /** Unsigned decimal degrees `d + m/60 + s/3600`; None where the source raises. */
  function Magnitude(t: Tag): (r: Option<real>)
    ensures r.Some? <==> DmsReadable(t)
    ensures r.Some? ==>
      var items := t.values.items;
      r.value == RatioValue(items[0]) + RatioValue(items[1]) / 60.0 + RatioValue(items[2]) / 3600.0
  {
    match Components(t)
    case None => None
    case Some(c) => if |c| < 3 then None else Some(c[0] + c[1] / 60.0 + c[2] / 3600.0)
  }

  /** The reference tag flips the sign on exactly one letter. */
  function Signed(magnitude: real, ref: Tag, negative: string): real
  {
    if ref.printable == negative then -magnitude else magnitude
  }

  /** `str(tags.get(key, 'Unknown'))` */
  function TextOr(tags: TagMap, key: string): (s: string)
    ensures key !in tags ==> s == "Unknown"
    ensures key in tags ==> s == tags[key].printable
  {
    if key in tags then tags[key].printable else "Unknown"
  }

  /** Altitude in metres: 0.0 when the tag is absent, the first rational when
      it is present (an exifread tag object is always truthy); None where
      reading it raises. `GPS GPSAltitudeRef` is not consulted. */
  function Altitude(tags: TagMap): (r: Option<real>)
    ensures r.Some? <==> (AltitudeKey in tags ==> FirstRatioReadable(tags[AltitudeKey]))
    ensures AltitudeKey !in tags ==> r == Some(0.0)
  {
    if AltitudeKey !in tags then Some(0.0)
    else if FirstRatioReadable(tags[AltitudeKey]) then Some(RatioValue(tags[AltitudeKey].values.items[0]))
    else None
  }

  function ExtractGps(tags: TagMap): (r: GpsOutcome)
    ensures r == NoGps <==> LatitudeKey !in tags || LongitudeKey !in tags
    ensures r.Located? <==> Resolvable(tags)
    ensures r.Located? ==>
      && r.record.latitude == Signed(Magnitude(tags[LatitudeKey]).value, tags[LatitudeRefKey], "S")
      && r.record.longitude == Signed(Magnitude(tags[LongitudeKey]).value, tags[LongitudeRefKey], "W")
  {
    if LatitudeKey !in tags || LongitudeKey !in tags then NoGps
    else if LatitudeRefKey !in tags || LongitudeRefKey !in tags then Malformed
    else
      match (Magnitude(tags[LatitudeKey]), Magnitude(tags[LongitudeKey]), Altitude(tags))
      case (Some(lat), Some(lon), Some(alt)) =>
        Located(GeoRecord(
          TextOr(tags, DateTimeKey),
          Signed(lat, tags[LatitudeRefKey], "S"),
          Signed(lon, tags[LongitudeRefKey], "W"),
          alt,
          TextOr(tags, MakeKey),
          TextOr(tags, ModelKey)))
      case _ => Malformed
  }

  /** `extract_exif_info` as the caller sees it: a record, or None for both
      the missing-GPS and the caught-exception outcomes. */
  function ExtractExifInfo(tags: TagMap): (r: Option<GeoRecord>)
    ensures r.Some? <==> Resolvable(tags)
    ensures LatitudeKey !in tags || LongitudeKey !in tags ==> r.None?
    ensures r.Some? ==>
      && r.value.latitude == Signed(Magnitude(tags[LatitudeKey]).value, tags[LatitudeRefKey], "S")
      && r.value.longitude == Signed(Magnitude(tags[LongitudeKey]).value, tags[LongitudeRefKey], "W")
    ensures r.Some? ==>
      && (AltitudeKey !in tags ==> r.value.altitude == 0.0)
      && (AltitudeKey in tags ==> r.value.altitude == RatioValue(tags[AltitudeKey].values.items[0]))
      && (DateTimeKey !in tags ==> r.value.datetime == "Unknown")
      && (DateTimeKey in tags ==> r.value.datetime == tags[DateTimeKey].printable)
      && (MakeKey !in tags ==> r.value.make == "Unknown")
      && (MakeKey in tags ==> r.value.make == tags[MakeKey].printable)
      && (ModelKey !in tags ==> r.value.model == "Unknown")
      && (ModelKey in tags ==> r.value.model == tags[ModelKey].printable)
  {
    match ExtractGps(tags)
    case Located(rec) => Some(rec)
    case _ => None
  }

  /** Every value of a rational list is non-negative, as for the unsigned
      RATIONAL type the GPS coordinates use. */
  predicate NonNegative(t: Tag)
  {
    t.values.Ratios? && forall i :: 0 <= i < |t.values.items| ==> 0 <= t.values.items[i].num && 0 <= t.values.items[i].den
  }

  /** When minutes and seconds are non-negative and together make less than
      sixty minutes (a canonical triple), they add less than one degree: the
      result lies in [d, d + 1). */
  lemma MagnitudeWithinDegree(t: Tag)
    requires DmsReadable(t)
    requires 0.0 <= RatioValue(t.values.items[1]) && 0.0 <= RatioValue(t.values.items[2])
    requires RatioValue(t.values.items[1]) + RatioValue(t.values.items[2]) / 60.0 < 60.0
    ensures var d := RatioValue(t.values.items[0]);
      d <= Magnitude(t).value < d + 1.0
  {
  }

  lemma NonNegativeMagnitude(t: Tag)
    requires DmsReadable(t) && NonNegative(t)
    ensures Magnitude(t).value >= 0.0
  {
  }

  /** Reference `S` makes the latitude non-positive, reference `W` the
      longitude; any other reference leaves an unsigned coordinate
      non-negative. A negative coordinate therefore always carries the
      negating reference. */
  lemma SignFollowsReference(tags: TagMap)
    requires ExtractExifInfo(tags).Some?
    requires NonNegative(tags[LatitudeKey]) && NonNegative(tags[LongitudeKey])
    ensures var rec := ExtractExifInfo(tags).value;
      && (tags[LatitudeRefKey].printable == "S" ==> rec.latitude == -Magnitude(tags[LatitudeKey]).value)
      && (tags[LatitudeRefKey].printable != "S" ==> rec.latitude == Magnitude(tags[LatitudeKey]).value)
      && (tags[LongitudeRefKey].printable == "W" ==> rec.longitude == -Magnitude(tags[LongitudeKey]).value)
      && (tags[LongitudeRefKey].printable != "W" ==> rec.longitude == Magnitude(tags[LongitudeKey]).value)
      && (tags[LatitudeRefKey].printable == "S" ==> rec.latitude <= 0.0)
      && (tags[LatitudeRefKey].printable != "S" ==> rec.latitude >= 0.0)
      && (rec.latitude < 0.0 ==> tags[LatitudeRefKey].printable == "S")
      && (tags[LongitudeRefKey].printable == "W" ==> rec.longitude <= 0.0)
      && (tags[LongitudeRefKey].printable != "W" ==> rec.longitude >= 0.0)
      && (rec.longitude < 0.0 ==> tags[LongitudeRefKey].printable == "W")
  {
  }

  /** 25 deg 0' 0" N and 121 deg 30' 0" E, with no other tags, yield 25.0 and
      121.5 and the defaults for everything else. */
  lemma NorthEastExample()
    ensures
      var tags := map[
        LatitudeKey := Tag("[25, 0, 0]", Ratios([Ratio(25, 1), Ratio(0, 1), Ratio(0, 1)])),
        LatitudeRefKey := Tag("N", NonRational),
        LongitudeKey := Tag("[121, 30, 0]", Ratios([Ratio(121, 1), Ratio(30, 1), Ratio(0, 1)])),
        LongitudeRefKey := Tag("E", NonRational)];
      ExtractExifInfo(tags) == Some(GeoRecord("Unknown", 25.0, 121.5, 0.0, "Unknown", "Unknown"))
  {
  }
}
