/**
 What follows the loop: the archive is built only when at least one upload
 produced a record, and the number of records that carry a heading is
 reported.
 */
module Conversion {
  import opened ByteScan
  import opened Foreign
  import opened Kmz
  import opened Batch

  /** `sum(1 for info in ... if info.get('img_direction_decimal') is not None)`:
      unlike the description line, this counts a 0.0 heading. */
  function CountWithDirection(infos: seq<PhotoInfo>): (n: nat)
    ensures n <= |infos|
    ensures n == 0 <==> forall i :: 0 <= i < |infos| ==> infos[i].direction.None?
    ensures n == |infos| <==> forall i :: 0 <= i < |infos| ==> infos[i].direction.Some?
  {
    if |infos| == 0 then 0
    else (if infos[0].direction.Some? then 1 else 0) + CountWithDirection(infos[1..])
  }

  /** The count is additive over concatenation; with the one-record cases
      above this fixes it to the number of records that have a heading. */
  lemma {:induction false} CountWithDirectionAppend(a: seq<PhotoInfo>, b: seq<PhotoInfo>)
    ensures CountWithDirection(a + b) == CountWithDirection(a) + CountWithDirection(b)
    decreases |a|
  {
    if |a| == 0 {
      assert a + b == b;
    } else {
      assert (a + b)[0] == a[0];
      assert (a + b)[1..] == a[1..] + b;
      CountWithDirectionAppend(a[1..], b);
    }
  }

  /** Placemarks drawn one per record, with the directional icon exactly for
      the records that have a heading, show as many directional icons as there
      are records with a heading. */
  lemma {:induction false} HeadingCountMatchesIcons(infos: seq<PhotoInfo>, pms: seq<Placemark>)
    requires |pms| == |infos|
    requires forall i :: 0 <= i < |infos| ==> (pms[i].icon == DirectionalIcon <==> infos[i].direction.Some?)
    ensures CountWithDirection(infos) == CountIcon(pms, DirectionalIcon)
    decreases |infos|
  {
    if |infos| > 0 {
      HeadingCountMatchesIcons(infos[1..], pms[1..]);
    }
  }

  /** The count of records with a heading is the number of placemarks drawn
      with the directional icon. */
  lemma DirectionCountMatchesIcons(infos: seq<PhotoInfo>, lib: Libraries)
    requires Placemarks(infos, lib).Some?
    ensures CountWithDirection(infos) == CountIcon(Placemarks(infos, lib).value, DirectionalIcon)
  {
    HeadingCountMatchesIcons(infos, Placemarks(infos, lib).value);
  }

  /** What the caller is left with after the button press. */
  datatype Outcome =
    | NoGpsPhotos(skipped: seq<string>)
    | AssemblyFailed(skipped: seq<string>)
    | Converted(archive: Archive, converted: nat, withDirection: nat, skipped: seq<string>)

  /** The loop, then the archive when at least one record exists, then the
      success and heading counts. */
  function Convert(uploads: seq<Upload>, lib: Libraries): (c: Outcome)
    ensures c.skipped == Skipped(uploads, lib)
    ensures c.Converted? <==> |Records(uploads, lib)| > 0 && CreateKmz(Records(uploads, lib), lib).Some?
    ensures c.Converted? ==>
      && c.archive == CreateKmz(Records(uploads, lib), lib).value
      && c.withDirection == CountWithDirection(Records(uploads, lib))
    ensures c.NoGpsPhotos? <==> |c.skipped| == |uploads|
    ensures c.Converted? ==> c.converted > 0 && c.converted + |c.skipped| == |uploads|
    ensures c.Converted? ==>
      && |c.archive.entries| == 1
      && |c.archive.entries[0].document.placemarks| == c.converted
    ensures c.Converted? ==>
      c.withDirection == CountIcon(c.archive.entries[0].document.placemarks, DirectionalIcon)
  {
    var infos := Records(uploads, lib);
    var skipped := Skipped(uploads, lib);
    PartitionCounts(uploads, lib);
    if |infos| == 0 then NoGpsPhotos(skipped)
    else
      match CreateKmz(infos, lib)
      case None => AssemblyFailed(skipped)
      case Some(archive) =>
        DirectionCountMatchesIcons(infos, lib);
        Converted(archive, |infos|, CountWithDirection(infos), skipped)
  }
}
