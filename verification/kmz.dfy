/**
 The per-record part of `create_kmz`: which icon and heading each placemark
 gets, what its description shows, and the order of the placemarks in the
 document. Number formatting, the markup tree and the zip container are
 represented by their contents only.
 */
module Kmz {
  import opened Options
  import opened ByteScan
  import opened Foreign
  import opened GpsExtraction

  const CameraIcon := "http://maps.google.com/mapfiles/kml/shapes/camera.png"
  const DirectionalIcon := "https://earth.google.com/images/kml-icons/track-directional/track-0.png"
  const KmlEntryName := "doc.kml"

  /** One accepted upload as the batch loop stores it: the GPS record plus the
      file name, the heading (None when neither tier found one) and the raw
      bytes for the thumbnail. */
  datatype PhotoInfo = PhotoInfo(
    record: GeoRecord,
    filename: string,
    direction: Option<real>,
    imageBytes: seq<byte>)

  /** The direction line of the description: the heading, or 'N/A'. */
  datatype DirectionText = NotAvailable | Degrees(value: real)

  datatype Description = Description(
    datetime: string,
    longitude: real,
    latitude: real,
    altitude: real,
    direction: DirectionText,
    make: string,
    model: string,
    thumbnail: string)

  /** A point feature. `coordinates` is in the markup's own order:
      longitude, latitude, altitude. */
  datatype Placemark = Placemark(
    name: string,
    coordinates: seq<real>,
    icon: string,
    scale: int,
    heading: real,
    description: Description)

  datatype KmlDocument = KmlDocument(placemarks: seq<Placemark>)

  datatype Entry = Entry(path: string, document: KmlDocument)

  datatype Archive = Archive(entries: seq<Entry>)

  /** `img_direction if img_direction else 'N/A'`: Python's truthiness makes a
      heading of exactly 0.0 read as missing. */
  function DirectionLine(direction: Option<real>): (t: DirectionText)
    ensures t == NotAvailable <==> direction.None? || direction.value == 0.0
    ensures t.Degrees? ==> direction == Some(t.value)
  {
    match direction
    case Some(h) => if h != 0.0 then Degrees(h) else NotAvailable
    case None => NotAvailable
  }

  function BuildPlacemark(info: PhotoInfo, thumbnail: string): (pm: Placemark)
    ensures pm.name == info.filename
    ensures |pm.coordinates| == 3
    ensures pm.coordinates[0] == info.record.longitude
    ensures pm.coordinates[1] == info.record.latitude
    ensures pm.coordinates[2] == info.record.altitude
    ensures pm.icon == CameraIcon <==> info.direction.None?
    ensures pm.icon == DirectionalIcon <==> info.direction.Some?
    ensures info.direction.None? ==> pm.heading == 0.0
    ensures info.direction.Some? ==> pm.heading == info.direction.value
    ensures pm.scale == 1
    ensures pm.description.direction == NotAvailable <==> info.direction.None? || info.direction.value == 0.0
    ensures pm.description.direction.Degrees? ==> pm.description.direction.value == pm.heading
    ensures pm.description.thumbnail == thumbnail
    ensures pm.description.datetime == info.record.datetime
    ensures pm.description.make == info.record.make && pm.description.model == info.record.model
    ensures pm.description.longitude == pm.coordinates[0]
    ensures pm.description.latitude == pm.coordinates[1]
    ensures pm.description.altitude == pm.coordinates[2]
  {
    var rec := info.record;
    var icon := if info.direction.None? then CameraIcon else DirectionalIcon;
    var heading := if info.direction.None? then 0.0 else info.direction.value;
    Placemark(
      info.filename,
      [rec.longitude, rec.latitude, rec.altitude],
      icon,
      1,
      heading,
      Description(rec.datetime, rec.longitude, rec.latitude, rec.altitude,
                  DirectionLine(info.direction), rec.make, rec.model, thumbnail))
  }

  /** A heading of exactly 0.0 (due north) is drawn with the directional icon
      but described as 'N/A'. */
  lemma NorthHeadingDescribedAsMissing(info: PhotoInfo, thumbnail: string)
    requires info.direction == Some(0.0)
    ensures BuildPlacemark(info, thumbnail).icon == DirectionalIcon
    ensures BuildPlacemark(info, thumbnail).heading == 0.0
    ensures BuildPlacemark(info, thumbnail).description.direction == NotAvailable
  {
  }

  /** lxml accepts every free text the placemark carries: the file name as
      the placemark's name, and the date/time, make and model inside the
      description. The rest of the description (fixed labels, formatted
      numbers, base64) never contains a control character. */
  predicate TextAccepted(info: PhotoInfo, xmlText: string -> bool)
  {
    && xmlText(info.filename)
    && xmlText(info.record.datetime)
    && xmlText(info.record.make)
    && xmlText(info.record.model)
  }

  /** The loop over the records: one placemark per record, in input order.
      A record whose thumbnail cannot be made, or whose text lxml rejects,
      raises out of the whole call, so no document is produced at all. */
  function Placemarks(infos: seq<PhotoInfo>, lib: Libraries): (r: Option<seq<Placemark>>)
    ensures r.Some? <==> forall i :: 0 <= i < |infos| ==>
      lib.thumbnail(infos[i].imageBytes).Some? && TextAccepted(infos[i], lib.xmlText)
    ensures r.Some? ==> |r.value| == |infos|
    ensures r.Some? ==> forall i :: 0 <= i < |infos| ==>
      r.value[i] == BuildPlacemark(infos[i], lib.thumbnail(infos[i].imageBytes).value)
  {
    if |infos| == 0 then Some([])
    else
      match lib.thumbnail(infos[0].imageBytes)
      case None => None
      case Some(t) =>
        if !TextAccepted(infos[0], lib.xmlText) then None
        else
          match Placemarks(infos[1..], lib)
          case None => None
          case Some(rest) => Some([BuildPlacemark(infos[0], t)] + rest)
  }

  /** `create_kmz`: one archive holding exactly one entry, `doc.kml`, whose
      document lists the placemarks in record order; None where building a
      thumbnail or a text node raises. */
  function CreateKmz(infos: seq<PhotoInfo>, lib: Libraries): (r: Option<Archive>)
    ensures r.Some? <==> forall i :: 0 <= i < |infos| ==>
      lib.thumbnail(infos[i].imageBytes).Some? && TextAccepted(infos[i], lib.xmlText)
    ensures r.Some? ==> |r.value.entries| == 1 && r.value.entries[0].path == KmlEntryName
    ensures r.Some? ==> |r.value.entries[0].document.placemarks| == |infos|
    ensures r.Some? ==> forall i :: 0 <= i < |infos| ==>
      && r.value.entries[0].document.placemarks[i].name == infos[i].filename
      && r.value.entries[0].document.placemarks[i].coordinates
         == [infos[i].record.longitude, infos[i].record.latitude, infos[i].record.altitude]
    ensures r.Some? ==> forall i :: 0 <= i < |infos| ==>
      r.value.entries[0].document.placemarks[i]
      == BuildPlacemark(infos[i], lib.thumbnail(infos[i].imageBytes).value)
  {
    match Placemarks(infos, lib)
    case None => None
    case Some(pms) => Some(Archive([Entry(KmlEntryName, KmlDocument(pms))]))
  }

  /** The number of placemarks drawn with the given icon. */
  function CountIcon(pms: seq<Placemark>, icon: string): (n: nat)
    ensures n <= |pms|
    ensures n == 0 <==> forall i :: 0 <= i < |pms| ==> pms[i].icon != icon
    ensures n == |pms| <==> forall i :: 0 <= i < |pms| ==> pms[i].icon == icon
  {
    if |pms| == 0 then 0
    else (if pms[0].icon == icon then 1 else 0) + CountIcon(pms[1..], icon)
  }
}
