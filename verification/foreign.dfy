/**
 The library calls the core makes but whose internals are outside this model,
 bundled as pure functions so that every operation takes them as a parameter.
 */
module Foreign {
  import opened Options
  import opened ByteScan
  import opened ExifTags

  datatype Libraries = Libraries(
    /** `exifread.process_file(io.BytesIO(b), details=False)` */
    exifTags: seq<byte> -> TagMap,
    /** `b.decode('utf-8', errors='ignore')` */
    decodeUtf8: seq<byte> -> string,
    /** `float(s)`; None where it raises ValueError */
    parseFloat: string -> Option<real>,
    /** `round(x, 1)` on a binary float */
    round1: real -> real,
    /** PIL open, `thumbnail((1000, 1000))`, JPEG at quality 90, base64;
        None where PIL cannot decode the payload or cannot write its mode as
        JPEG */
    thumbnail: seq<byte> -> Option<string>,
    /** lxml's test that a text may go into the markup tree: false for text
        with NUL or other control characters, where it raises ValueError */
    xmlText: string -> bool)
}
