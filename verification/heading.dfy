/**
 `extract_img_direction`: the capture heading of one photograph, from two tiers
 tried in turn. The XMP tier cuts the raw bytes from the `<x:xmpmeta` marker to
 the end of the `</x:xmpmeta>` marker, decodes them, and takes the first of the
 four gimbal-yaw patterns that matches; the EXIF tier reads `GPS
 GPSImgDirection`. Either tier's exceptions are swallowed, and when both come up
 empty the heading is None.
 */
module Heading {
  import opened Options
  import opened ByteScan
  import opened ExifTags
  import opened Foreign
  import opened YawPatterns

  const XmpOpen := Ascii("<x:xmpmeta")
  const XmpClose := Ascii("</x:xmpmeta>")

  /** `xmp_end`: the index of the end marker plus its length. Because a missing
      marker gives -1 + 12, it is never -1, and the guard that compares it with
      -1 never fires. */
  function XmpEnd(bytes: seq<byte>): (e: int)
    ensures e >= |XmpClose| - 1 && e != -1
    ensures Find(bytes, XmpClose) == -1 ==> e == 11
    ensures Find(bytes, XmpClose) != -1 ==> e <= |bytes| && OccursAt(bytes, XmpClose, e - |XmpClose|)
    ensures forall j :: 0 <= j < e - |XmpClose| ==> !OccursAt(bytes, XmpClose, j)
  {
    Find(bytes, XmpClose) + |XmpClose|
  }

  /** The byte span the XMP tier decodes, or None when the tier is skipped.
      The tier runs exactly when the start marker is present, whether or not
      the end marker is. */
  function XmpSpan(bytes: seq<byte>): (r: Option<seq<byte>>)
    ensures r.Some? <==> Find(bytes, XmpOpen) != -1
    ensures r.Some? ==> |r.value| <= XmpEnd(bytes)
    ensures r.Some? ==> r.value == Slice(bytes, Find(bytes, XmpOpen), XmpEnd(bytes))
  {
    var start := Find(bytes, XmpOpen);
    var end := XmpEnd(bytes);
    if start != -1 && end != -1 then Some(Slice(bytes, start, end)) else None
  }

  /** The XMP tier. The loop over patterns stops at the first pattern that
      matches; if `float` then rejects its group, the exception leaves the
      loop, so no later pattern is consulted and the tier yields nothing. */
  function XmpHeading(bytes: seq<byte>, lib: Libraries): (r: Option<real>)
    ensures r.Some? ==> Find(bytes, XmpOpen) != -1
    ensures r.Some? <==>
      && XmpSpan(bytes).Some?
      && var hit := FirstHit(lib.decodeUtf8(XmpSpan(bytes).value), GimbalYawPatterns);
         hit.Some? && lib.parseFloat(hit.value.group).Some?
    ensures r.Some? ==>
      var hit := FirstHit(lib.decodeUtf8(XmpSpan(bytes).value), GimbalYawPatterns).value;
      r.value == lib.round1(lib.parseFloat(hit.group).value)
  {
    match XmpSpan(bytes)
    case None => None
    case Some(span) =>
      match FirstHit(lib.decodeUtf8(span), GimbalYawPatterns)
      case None => None
      case Some(hit) =>
        match lib.parseFloat(hit.group)
        case None => None
        case Some(v) => Some(lib.round1(v))
  }

  /** `Fraction(values[0])` succeeds: the first value is a rational with a
      non-zero denominator, or an integer. */
  predicate FractionReadable(t: Tag)
  {
    FirstRatioReadable(t) || (t.values.Integers? && |t.values.ints| > 0)
  }

  /** The EXIF tier: `round(float(Fraction(values[0])), 1)` of `GPS
      GPSImgDirection`, None when the tag is absent or its first value cannot
      be read. */
  function ExifHeading(tags: TagMap, round1: real -> real): (r: Option<real>)
    ensures r.Some? <==> ImgDirectionKey in tags && FractionReadable(tags[ImgDirectionKey])
    ensures r.Some? && tags[ImgDirectionKey].values.Ratios? ==>
      r.value == round1(RatioValue(tags[ImgDirectionKey].values.items[0]))
    ensures r.Some? && tags[ImgDirectionKey].values.Integers? ==>
      r.value == round1(tags[ImgDirectionKey].values.ints[0] as real)
  {
    if ImgDirectionKey !in tags then None
    else
      var t := tags[ImgDirectionKey];
      match t.values
      case Ratios(items) =>
        if |items| > 0 && items[0].den != 0 then Some(round1(RatioValue(items[0]))) else None
      case Integers(ints) =>
        if |ints| > 0 then Some(round1(ints[0] as real)) else None
      case NonRational => None
  }

  function ExtractImgDirection(bytes: seq<byte>, lib: Libraries): (r: Option<real>)
    ensures XmpHeading(bytes, lib).Some? ==> r == XmpHeading(bytes, lib)
    ensures XmpHeading(bytes, lib).None? ==> r == ExifHeading(lib.exifTags(bytes), lib.round1)
    ensures r.None? <==> XmpHeading(bytes, lib).None? && ExifHeading(lib.exifTags(bytes), lib.round1).None?
  {
    match XmpHeading(bytes, lib)
    case Some(h) => Some(h)
    case None => ExifHeading(lib.exifTags(bytes), lib.round1)
  }

  /** Once the XMP tier yields a heading, the EXIF tags play no part: any
      other tag reader gives the same result. */
  lemma XmpTierShadowsExif(bytes: seq<byte>, lib: Libraries, otherTags: seq<byte> -> TagMap)
    ensures XmpHeading(bytes, lib).Some? ==>
      && ExtractImgDirection(bytes, lib.(exifTags := otherTags)) == ExtractImgDirection(bytes, lib)
      && ExtractImgDirection(bytes, lib) == XmpHeading(bytes, lib)
  {
  }

  /** A yaw value the float parser rejects ends the XMP tier even when a later
      pattern would have supplied a readable value; the heading then comes
      from the EXIF tier. */
  lemma UnreadableFirstYawFallsBackToExif(bytes: seq<byte>, lib: Libraries)
    requires XmpSpan(bytes).Some?
    requires var hit := FirstHit(lib.decodeUtf8(XmpSpan(bytes).value), GimbalYawPatterns);
      hit.Some? && lib.parseFloat(hit.value.group).None?
    ensures ExtractImgDirection(bytes, lib) == ExifHeading(lib.exifTags(bytes), lib.round1)
  {
  }

  /** When the end marker is missing, the span is `bytes[start:11]`: at most
      eleven bytes, and empty whenever the start marker sits at index 11 or
      later. */
  lemma MissingEndMarkerSpan(bytes: seq<byte>)
    requires Find(bytes, XmpOpen) != -1
    requires Find(bytes, XmpClose) == -1
    ensures XmpSpan(bytes) == Some(Slice(bytes, Find(bytes, XmpOpen), 11))
    ensures |XmpSpan(bytes).value| <= 11
    ensures Find(bytes, XmpOpen) >= 11 ==> XmpSpan(bytes) == Some([])
  {
  }

  /** The dead `xmp_end != -1` guard is harmless: with the end marker missing,
      the eleven-byte span decodes (as long as decoding does not produce more
      characters than bytes, which UTF-8 decoding never does) to text too
      short for any pattern, so the XMP tier yields nothing, exactly as if the
      guard had skipped it. */
  lemma MissingEndMarkerYieldsNoXmpHeading(bytes: seq<byte>, lib: Libraries)
    requires Find(bytes, XmpClose) == -1
    requires XmpSpan(bytes).Some? ==> |lib.decodeUtf8(XmpSpan(bytes).value)| <= |XmpSpan(bytes).value|
    ensures XmpHeading(bytes, lib).None?
  {
  }

  /** An end marker that comes before the start marker makes the span empty,
      so the XMP tier yields nothing for it. */
  lemma EndMarkerBeforeStartGivesEmptySpan(bytes: seq<byte>)
    requires Find(bytes, XmpOpen) != -1 && Find(bytes, XmpClose) != -1
    requires XmpEnd(bytes) <= Find(bytes, XmpOpen)
    ensures XmpSpan(bytes) == Some([])
  {
  }
}
