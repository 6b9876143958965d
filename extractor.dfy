/**
 * The asset extractor: cutting a buffer at its corrected header index
 * (`extract_bytes`), and the effect of `extract_file` and
 * `extract_file_to_bytes` on the filesystem value.
 */
module Extractor {
  import opened Wrappers
  import opened Seqs
  import opened Registry
  import opened Matcher
  import opened Paths
  import opened FileSystem
  import opened State

  /** The result of `extract_bytes`: the payload, or the underflow panic of `index -= offset`. */
  datatype Cut = Cut(data: seq<byte>) | Underflow

  /** `d` is a suffix of `b`. */
  predicate IsSuffix(d: seq<byte>, b: seq<byte>)
  {
    |d| <= |b| && b[|b| - |d|..] == d
  }

  /**
   * `extract_bytes`: find the first occurrence of the header, move back by
   * its offset and return everything from there; the unmodified buffer
   * when the header does not occur. The subtraction is unguarded: a header
   * found before its offset makes the thread panic.
   */
  function ExtractBytes(header: string, bytes: seq<byte>): (r: Cut)
    ensures r.Cut? ==> IsSuffix(r.data, bytes)
    ensures !(|header| > 0 && Occurs(bytes, AsciiBytes(header))) ==> r == Cut(bytes)
    ensures r.Underflow? <==> |header| > 0 && exists i :: 0 <= i < OffsetOf(header) && OccursAt(bytes, AsciiBytes(header), i)
    ensures r.Cut? && |header| > 0 && Occurs(bytes, AsciiBytes(header)) ==>
      && OccursAt(r.data, AsciiBytes(header), OffsetOf(header))
      && forall j :: 0 <= j < |bytes| - |r.data| + OffsetOf(header) ==> !OccursAt(bytes, AsciiBytes(header), j)
  {
    match BytesSearch(bytes, AsciiBytes(header))
    case None => Cut(bytes)
    case Some(index) =>
      var offset := OffsetOf(header);
      if index < offset then Underflow
      else
        OccursAtSuffix(bytes, AsciiBytes(header), index - offset, offset);
        Cut(bytes[index - offset..])
  }

  /** A header without an offset cuts exactly at its first occurrence. */
  lemma CutAtHeader(header: string, bytes: seq<byte>, i: nat)
    requires |header| > 0 && OffsetOf(header) == 0
    requires OccursAt(bytes, AsciiBytes(header), i)
    requires forall j :: 0 <= j < i ==> !OccursAt(bytes, AsciiBytes(header), j)
    ensures ExtractBytes(header, bytes) == Cut(bytes[i..])
  {
    SearchFinds(bytes, AsciiBytes(header), i);
  }

  /**
   * Extraction is idempotent: an extracted payload holds its header at the
   * offset and nowhere before, so extracting it again gives it back.
   */
  lemma ExtractIdempotent(header: string, bytes: seq<byte>)
    requires ExtractBytes(header, bytes).Cut?
    ensures ExtractBytes(header, ExtractBytes(header, bytes).data) == ExtractBytes(header, bytes)
  {
    var p := ExtractBytes(header, bytes).data;
    var hb := AsciiBytes(header);
    if |header| > 0 && Occurs(bytes, hb) {
      var off := OffsetOf(header);
      var start := |bytes| - |p|;
      assert bytes[start..] == p;
      forall j | 0 <= j < off ensures !OccursAt(p, hb, j) {
        OccursAtSuffix(bytes, hb, start, j);
      }
      SearchFinds(p, hb, off);
      assert p[off - off..] == p;
    }
  }

  /**
   * The offset subtraction is not guarded: a buffer that starts with "PNG"
   * (no byte before the header) makes image extraction panic instead of
   * returning the buffer.
   */
  lemma UnderflowExample()
    ensures Payload("images", [0x50, 0x4E, 0x47]) == Underflow
  {
    var b: seq<byte> := [0x50, 0x4E, 0x47];
    assert AsciiBytes("PNG") == b;
    assert OccursAt(b, AsciiBytes("PNG"), 0);
    SearchFinds(b, AsciiBytes("PNG"), 0);
    assert HeaderMatches(b, "PNG");
    assert FirstMatchAt(["PNG", "WEBP"], b, 0);
    assert FindHeader("images", b) == "PNG";
    assert OffsetOf("PNG") == 1;
  }

  /** The payload `extract_file` writes: cut at the category's matching header, or the whole file. */
  function Payload(mode: string, bytes: seq<byte>): Cut
  {
    var header := FindHeader(mode, bytes);
    if header != INVALID then ExtractBytes(header, bytes) else Cut(bytes)
  }

  /** A mode that is not a category (the music tab) passes the file through unchanged. */
  lemma PayloadOfNonCategory(mode: string, bytes: seq<byte>)
    requires mode !in HEADERS
    ensures Payload(mode, bytes) == Cut(bytes)
  {
  }

  /** The extension `extract_file` gives: the header's, or ".ogg" when it has none (INVALID included). */
  function ExtensionFor(header: string): (ext: string)
    ensures header in EXTENTION ==> ext == EXTENTION[header]
    ensures header !in EXTENTION ==> ext == DEFAULT_EXTENSION
    ensures header == INVALID ==> ext == ".ogg"
  {
    if header in EXTENTION then EXTENTION[header] else DEFAULT_EXTENSION
  }

  /** One call of `extract_file`. */
  datatype Job = Job(source: Path, mode: string, dest: Path, addExtension: bool)

  /** How `extract_file` ended: the returned path (Empty on a read failure), or a panic. */
  datatype ExtractOutcome = Returned(path: Path) | Panic

  /** The effect of one `extract_file`: its outcome, the new disk and the status it set, if any. */
  datatype ExtractResult = ExtractResult(outcome: ExtractOutcome, disk: Disk, status: Option<Status>)

  /**
   * `extract_file`: a metadata failure returns Empty with status "idling",
   * a read failure returns Empty with "failed-opening-file"; otherwise the
   * payload is written (a failed write is only logged) to the destination,
   * whose extension is set when asked, and that path is returned.
   */
  function ExtractEffect(disk: Disk, job: Job): (r: ExtractResult)
    ensures !disk.Exists(job.source) ==> r == ExtractResult(Returned(Empty), disk, Some(Msg("idling")))
    ensures disk.Exists(job.source) && disk.Read(job.source).None? ==>
      r == ExtractResult(Returned(Empty), disk, Some(Msg("failed-opening-file")))
    ensures r.outcome.Panic? <==> disk.Read(job.source).Some? && Payload(job.mode, disk.files[job.source]).Underflow?
    ensures r.status.Some? ==> r.disk == disk && r.outcome == Returned(Empty)
    ensures r.outcome.Panic? ==> r.disk == disk
  {
    if !disk.Exists(job.source) then
      ExtractResult(Returned(Empty), disk, Some(Msg("idling")))
    else
      match disk.Read(job.source)
      case None => ExtractResult(Returned(Empty), disk, Some(Msg("failed-opening-file")))
      case Some(bytes) =>
        var header := FindHeader(job.mode, bytes);
        var extracted := if header != INVALID then ExtractBytes(header, bytes) else Cut(bytes);
        if extracted.Underflow? then ExtractResult(Panic, disk, None)
        else
          var dest := if job.addExtension then WithExt(job.dest, ExtensionFor(header)) else job.dest;
          ExtractResult(Returned(dest), disk.Write(dest, extracted.data), None)
  }

  /**
   * A readable source is extracted to the destination, with the extension of
   * the header FindHeader chose (".ogg" when none matched), and the
   * payload lands there unless the destination cannot be written.
   */
  lemma ExtractWritesPayload(disk: Disk, job: Job)
    requires disk.Read(job.source).Some?
    requires Payload(job.mode, disk.files[job.source]).Cut?
    ensures var bytes := disk.files[job.source];
            var header := FindHeader(job.mode, bytes);
            var path := if job.addExtension then WithExt(job.dest, ExtensionFor(header)) else job.dest;
            var r := ExtractEffect(disk, job);
            && r.outcome == Returned(path)
            && r.status == None
            && r.disk == disk.Write(path, Payload(job.mode, bytes).data)
            && IsSuffix(Payload(job.mode, bytes).data, bytes)
  {
  }

  /** For a mode that is not a category the file is copied verbatim to `dest` with extension ".ogg". */
  lemma ExtractNonCategory(disk: Disk, source: Path, mode: string, dest: Path)
    requires mode !in HEADERS
    requires disk.Read(source).Some?
    ensures ExtractEffect(disk, Job(source, mode, dest, true))
      == ExtractResult(Returned(WithExt(dest, ".ogg")), disk.Write(WithExt(dest, ".ogg"), disk.files[source]), None)
  {
    ExtensionsCoverHeaders();
  }

  /** The bytes `extract_file_to_bytes` returns when the source cannot be read: the text "None". */
  const NONE_BYTES: seq<byte> := [0x4E, 0x6F, 0x6E, 0x65]

  /** `extract_file_to_bytes`: the payload, or "None" with status "failed-opening-file" on a read failure. */
  function ExtractToBytes(disk: Disk, source: Path, mode: string): (r: (Cut, Option<Status>))
    ensures disk.Read(source).None? ==> r == (Cut(NONE_BYTES), Some(Msg("failed-opening-file")))
    ensures disk.Read(source).Some? ==> r.1 == None
  {
    match disk.Read(source)
    case None => (Cut(NONE_BYTES), Some(Msg("failed-opening-file")))
    case Some(bytes) =>
      var header := FindHeader(mode, bytes);
      (if header != INVALID then ExtractBytes(header, bytes) else Cut(bytes), None)
  }

  /** `extract_file_to_bytes` returns exactly the bytes `extract_file` writes. */
  lemma ToBytesAgreesWithFile(disk: Disk, job: Job)
    requires disk.Read(job.source).Some?
    requires disk.Writable(if job.addExtension then WithExt(job.dest, ExtensionFor(FindHeader(job.mode, disk.files[job.source]))) else job.dest)
    requires ExtractEffect(disk, job).outcome.Returned?
    ensures var r := ExtractEffect(disk, job);
            ExtractToBytes(disk, job.source, job.mode).0 == Cut(r.disk.files[r.outcome.path])
  {
  }
}
