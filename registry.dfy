/**
 * The signature registry: per category the two candidate headers (checked
 * in order, "" meaning no second header), the extension of each header and
 * the offset subtracted from a found header index.
 */
module Registry {
  import opened Seqs

  /** The header `find_header` reports when nothing matched. */
  const INVALID := "INVALID"

  /** Category -> its two headers, in the order they are tried. */
  const HEADERS: map<string, seq<string>> := map[
    "sounds" := ["OggS", "ID3"],
    "images" := ["PNG", "WEBP"],
    "ktx-files" := ["KTX", ""],
    "rbxm-files" := ["<roblox!", ""]
  ]

  /** Header -> the file extension given to an extracted asset. */
  const EXTENTION: map<string, string> := map[
    "OggS" := ".ogg",
    "ID3" := ".mp3",
    "PNG" := ".png",
    "WEBP" := ".webp",
    "KTX" := ".ktx",
    "<roblox!" := ".rbxm"
  ]

  /** Header -> bytes of container framing that precede the header. */
  const OFFSET: map<string, nat> := map["PNG" := 1, "KTX" := 1, "WEBP" := 8]

  /** The extension used when the header has none (the music tab). */
  const DEFAULT_EXTENSION := ".ogg"

  /** The offset of a header; headers absent from OFFSET are not offset. */
  function OffsetOf(header: string): nat
  {
    if header in OFFSET then OFFSET[header] else 0
  }

  /** `h` is one of the registered headers of some category. */
  predicate IsHeader(h: string)
  {
    exists m :: m in HEADERS && h in HEADERS[m]
  }

  /**
   * `order` lists every category exactly once: an iteration order of the
   * HEADERS hash map, which the source does not fix.
   */
  predicate IsKeyOrder(order: seq<string>)
  {
    && (forall i, j :: 0 <= i < j < |order| ==> order[i] != order[j])
    && (forall k :: k in order ==> k in HEADERS)
    && (forall k :: k in HEADERS ==> k in order)
  }

  /** Every category has exactly two ASCII headers, none of them INVALID. */
  lemma HeaderTable()
    ensures forall m :: m in HEADERS ==> |HEADERS[m]| == 2
    ensures forall m, k :: m in HEADERS && 0 <= k < |HEADERS[m]| ==> IsAscii(HEADERS[m][k])
    ensures forall m :: m in HEADERS ==> INVALID !in HEADERS[m]
    ensures forall m :: m in HEADERS ==> HEADERS[m][0] != ""
  {
  }

  /** The headers of one category: two ASCII strings, neither of them INVALID, the first non-empty. */
  lemma CategoryHeaders(mode: string)
    requires mode in HEADERS
    ensures |HEADERS[mode]| == 2
    ensures IsAscii(HEADERS[mode][0]) && IsAscii(HEADERS[mode][1])
    ensures HEADERS[mode][0] != INVALID && HEADERS[mode][1] != INVALID
    ensures HEADERS[mode][0] != ""
  {
  }

  /** The music tab is not a category: its assets carry no header. */
  lemma MusicIsNotACategory()
    ensures "music" !in HEADERS && "Music" !in HEADERS
  {
  }

  /** Every non-empty header has an extension; the "" placeholder has none. */
  lemma ExtensionsCoverHeaders()
    ensures forall m, k :: m in HEADERS && 0 <= k < |HEADERS[m]| && HEADERS[m][k] != "" ==> HEADERS[m][k] in EXTENTION
    ensures "" !in EXTENTION && INVALID !in EXTENTION
  {
  }
}
