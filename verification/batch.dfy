/**
 The conversion loop: every upload is either turned into a photo record
 (GPS found, heading looked up) or its file name is added to the skipped
 list; the archive is built from the records when there is at least one.
 */
module Batch {
  import opened Options
  import opened ByteScan
  import opened Foreign
  import opened GpsExtraction
  import opened Heading
  import opened Kmz

  datatype Upload = Upload(name: string, bytes: seq<byte>)

  /** One iteration of the loop: the record the upload contributes, if any.
      The heading is looked up only for uploads that have GPS. */
  function Visit(u: Upload, lib: Libraries): (r: Option<PhotoInfo>)
    ensures r.Some? <==> ExtractExifInfo(lib.exifTags(u.bytes)).Some?
    ensures r.Some? ==> r.value.filename == u.name && r.value.imageBytes == u.bytes
    ensures r.Some? ==> r.value.record == ExtractExifInfo(lib.exifTags(u.bytes)).value
    ensures r.Some? ==> r.value.direction == ExtractImgDirection(u.bytes, lib)
  {
    match ExtractExifInfo(lib.exifTags(u.bytes))
    case Some(rec) => Some(PhotoInfo(rec, u.name, ExtractImgDirection(u.bytes, lib), u.bytes))
    case None => None
  }

  /** What one upload adds to the record list, and to the skipped list. */
  function Kept(u: Upload, lib: Libraries): seq<PhotoInfo>
  {
    match Visit(u, lib) case Some(info) => [info] case None => []
  }

  function Dropped(u: Upload, lib: Libraries): seq<string>
  {
    match Visit(u, lib) case Some(_) => [] case None => [u.name]
  }

  /** The outputs of `f` on the elements of `us`, concatenated in order. */
  function FlatMap<U, R, C>(us: seq<U>, f: (U, C) -> seq<R>, c: C): seq<R>
    decreases |us|
  {
    if |us| == 0 then []
    else
      FlatMap(us[..|us| - 1], f, c) + f(us[|us| - 1], c)
  }

  lemma FlatMapSnoc<U, R, C>(us: seq<U>, u: U, f: (U, C) -> seq<R>, c: C)
    ensures FlatMap(us + [u], f, c) == FlatMap(us, f, c) + f(u, c)
  {
  }

  lemma {:induction false} FlatMapAppend<U, R, C>(a: seq<U>, b: seq<U>, f: (U, C) -> seq<R>, c: C)
    ensures FlatMap(a + b, f, c) == FlatMap(a, f, c) + FlatMap(b, f, c)
    decreases |b|
  {
    if |b| == 0 {
      assert a + b == a;
    } else {
      var b', last := b[..|b| - 1], b[|b| - 1];
      assert b == b' + [last];
      assert a + b == (a + b') + [last];
      FlatMapAppend(a, b', f, c);
      FlatMapSnoc(a + b', last, f, c);
      FlatMapSnoc(b', last, f, c);
    }
  }

  /** Reference definition of the record list: the records of the uploads
      that have one, in upload order. */
  function Records(us: seq<Upload>, lib: Libraries): seq<PhotoInfo>
    decreases |us|
  {
    if |us| == 0 then []
    else
      Records(us[..|us| - 1], lib) + Kept(us[|us| - 1], lib)
  }

  /** Reference definition of the skipped list: the names of the uploads
      without a record, in upload order. */
  function Skipped(us: seq<Upload>, lib: Libraries): seq<string>
    decreases |us|
  {
    if |us| == 0 then []
    else
      Skipped(us[..|us| - 1], lib) + Dropped(us[|us| - 1], lib)
  }

  /** The loop body: GPS first, and the heading only for an upload that has
      GPS. */
  method VisitUpload(u: Upload, lib: Libraries) returns (r: Option<PhotoInfo>)
    ensures r == Visit(u, lib)
    ensures r.Some? <==> ExtractExifInfo(lib.exifTags(u.bytes)).Some?
    ensures Kept(u, lib) == (if r.Some? then [r.value] else [])
    ensures Dropped(u, lib) == (if r.Some? then [] else [u.name])
  {
    var exifInfo := ExtractExifInfo(lib.exifTags(u.bytes));
    if exifInfo.Some? {
      var direction := ExtractImgDirection(u.bytes, lib);
      r := Some(PhotoInfo(exifInfo.value, u.name, direction, u.bytes));
    } else {
      r := None;
    }
  }

  /** One pass of the loop: the record of upload `i` joins the record list,
      or else its name joins the skipped list. */
  method Absorb(uploads: seq<Upload>, i: nat, infos: seq<PhotoInfo>, skipped: seq<string>, lib: Libraries)
    returns (infos': seq<PhotoInfo>, skipped': seq<string>)
    requires i < |uploads|
    requires infos == Records(uploads[..i], lib) && skipped == Skipped(uploads[..i], lib)
    ensures infos' == Records(uploads[..i + 1], lib)
    ensures skipped' == Skipped(uploads[..i + 1], lib)
    ensures |infos'| + |skipped'| == |infos| + |skipped| + 1
  {
    var u := uploads[i];
    assert uploads[..i + 1] == uploads[..i] + [u];
    RecordsSnoc(uploads[..i], u, lib);
    var exifInfo := VisitUpload(u, lib);
    if exifInfo.Some? {
      infos', skipped' := infos + [exifInfo.value], skipped;
    } else {
      infos', skipped' := infos, skipped + [u.name];
    }
  }

  /** The loop itself, with the two accumulators. */
  method ProcessBatch(uploads: seq<Upload>, lib: Libraries) returns (infos: seq<PhotoInfo>, skipped: seq<string>)
    ensures infos == Records(uploads, lib)
    ensures skipped == Skipped(uploads, lib)
    ensures |infos| + |skipped| == |uploads|
  {
    infos := [];
    skipped := [];
    var i := 0;
    while i < |uploads|
      invariant 0 <= i <= |uploads|
      invariant infos == Records(uploads[..i], lib)
      invariant skipped == Skipped(uploads[..i], lib)
      invariant |infos| + |skipped| == i
    {
      infos, skipped := Absorb(uploads, i, infos, skipped, lib);
      i := i + 1;
    }
    assert uploads[..|uploads|] == uploads;
  }

  /** Appending one upload appends its contribution to each list. */
  lemma RecordsSnoc(us: seq<Upload>, u: Upload, lib: Libraries)
    ensures Records(us + [u], lib) == Records(us, lib) + Kept(u, lib)
    ensures Skipped(us + [u], lib) == Skipped(us, lib) + Dropped(u, lib)
  {
  }

  /** The two lists agree with the generic order-preserving collection. */
  lemma {:induction false} ListsAreFlatMaps(us: seq<Upload>, lib: Libraries)
    ensures Records(us, lib) == FlatMap(us, Kept, lib)
    ensures Skipped(us, lib) == FlatMap(us, Dropped, lib)
    decreases |us|
  {
    if |us| > 0 {
      ListsAreFlatMaps(us[..|us| - 1], lib);
    }
  }

  /** Every upload lands in exactly one of the two lists. */
  lemma {:induction false} PartitionCounts(us: seq<Upload>, lib: Libraries)
    ensures |Records(us, lib)| + |Skipped(us, lib)| == |us|
    decreases |us|
  {
    if |us| > 0 {
      PartitionCounts(us[..|us| - 1], lib);
    }
  }

  /** Both lists preserve upload order: the lists of a concatenation are the
      concatenations of the lists. */
  lemma PartitionAppend(a: seq<Upload>, b: seq<Upload>, lib: Libraries)
    ensures Records(a + b, lib) == Records(a, lib) + Records(b, lib)
    ensures Skipped(a + b, lib) == Skipped(a, lib) + Skipped(b, lib)
  {
    ListsAreFlatMaps(a, lib);
    ListsAreFlatMaps(b, lib);
    ListsAreFlatMaps(a + b, lib);
    FlatMapAppend(a, b, Kept, lib);
    FlatMapAppend(a, b, Dropped, lib);
  }

  /** A single upload goes to the record list exactly when its GPS record can
      be extracted, and otherwise its name goes to the skipped list. */
  lemma SingleUpload(u: Upload, lib: Libraries)
    ensures Records([u], lib) == (if Visit(u, lib).Some? then [Visit(u, lib).value] else [])
    ensures Skipped([u], lib) == (if Visit(u, lib).Some? then [] else [u.name])
  {
  }
}
