/**
 * The filesystem as a value: which paths exist with which contents, which
 * of them cannot be read, and which cannot be written. I/O calls of the
 * source become reads and updates of this value.
 */
module FileSystem {
  import opened Wrappers
  import opened Seqs
  import opened Paths

  datatype Disk = Disk(files: map<Path, seq<byte>>, unreadable: set<Path>, readOnly: set<Path>)
  {
    /** `fs::metadata` succeeds. */
    predicate Exists(p: Path)
    {
      p in files
    }

    /** `fs::read`: the whole contents, or None on an error. */
    function Read(p: Path): (r: Option<seq<byte>>)
      ensures r.Some? <==> p in files && p !in unreadable
      ensures r.Some? ==> r.value == files[p]
    {
      if p in files && p !in unreadable then Some(files[p]) else None
    }

    /** `fs::write` would succeed. */
    predicate Writable(p: Path)
    {
      p !in readOnly
    }

    /** `fs::write`: creates or replaces `p` when it is writable; otherwise nothing changes. */
    function Write(p: Path, data: seq<byte>): (d: Disk)
      ensures d.unreadable == unreadable && d.readOnly == readOnly
      ensures Writable(p) ==> d.files == files[p := data]
      ensures !Writable(p) ==> d == this
    {
      if Writable(p) then this.(files := files[p := data]) else this
    }
  }

  /** The two disks agree at `p`: it exists in both or neither, with the same contents. */
  predicate SameAt(d: Disk, e: Disk, p: Path)
  {
    (p in d.files <==> p in e.files) && (p in d.files ==> d.files[p] == e.files[p])
  }
}
