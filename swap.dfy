/**
 * `swap_assets` and `copy_assets`: exchanging or copying two files of one
 * directory, with the status they report.
 */
module Swap {
  import opened Wrappers
  import opened Seqs
  import opened Paths
  import opened FileSystem
  import opened State

  const FAILED := Msg("failed-opening-file")

  /**
   * `swap_assets`: read both files, then write each one's bytes into the
   * other; the first error (a read, then the first write, then the second)
   * stops the swap where it is.
   */
  function SwapEffect(disk: Disk, dir: Path, a: string, b: string): (Disk, Status)
  {
    var pa := Join(dir, a);
    var pb := Join(dir, b);
    match (disk.Read(pa), disk.Read(pb))
    case (Some(bytesA), Some(bytesB)) =>
      if !disk.Writable(pa) then (disk, FAILED)
      else
        var half := disk.Write(pa, bytesB);
        if !half.Writable(pb) then (half, FAILED)
        else (half.Write(pb, bytesA), Msg("swapped"))
    case _ => (disk, FAILED)
  }

  /** `copy_assets`: read the first file and write its bytes over the second. */
  function CopyEffect(disk: Disk, dir: Path, a: string, b: string): (Disk, Status)
  {
    var pa := Join(dir, a);
    var pb := Join(dir, b);
    match disk.Read(pa)
    case Some(bytesA) =>
      if !disk.Writable(pb) then (disk, FAILED) else (disk.Write(pb, bytesA), Msg("copied"))
    case None => (disk, FAILED)
  }

  /** `swap_assets`: the disk changes as SwapEffect says, and its status is reported. */
  method SwapAssets(st: AppState, disk: Disk, dir: Path, a: string, b: string) returns (after: Disk)
    modifies st`status, st`requestRepaint
    ensures after == SwapEffect(disk, dir, a, b).0
    ensures st.Snap() == old(st.Snap()).WithStatus(SwapEffect(disk, dir, a, b).1)
  {
    var r := SwapEffect(disk, dir, a, b);
    after := r.0;
    st.UpdateStatus(r.1);
  }

  /** `copy_assets`: the disk changes as CopyEffect says, and its status is reported. */
  method CopyAssets(st: AppState, disk: Disk, dir: Path, a: string, b: string) returns (after: Disk)
    modifies st`status, st`requestRepaint
    ensures after == CopyEffect(disk, dir, a, b).0
    ensures st.Snap() == old(st.Snap()).WithStatus(CopyEffect(disk, dir, a, b).1)
  {
    var r := CopyEffect(disk, dir, a, b);
    after := r.0;
    st.UpdateStatus(r.1);
  }

  /** Both files readable and writable: their contents are exchanged and nothing else changes. */
  lemma SwapExchanges(disk: Disk, dir: Path, a: string, b: string)
    requires disk.Read(Join(dir, a)).Some? && disk.Read(Join(dir, b)).Some?
    requires disk.Writable(Join(dir, a)) && disk.Writable(Join(dir, b))
    ensures var (after, status) := SwapEffect(disk, dir, a, b);
            && status == Msg("swapped")
            && after.files == disk.files[Join(dir, a) := disk.files[Join(dir, b)]][Join(dir, b) := disk.files[Join(dir, a)]]
            && after.unreadable == disk.unreadable && after.readOnly == disk.readOnly
  {
  }

  /** After a successful swap, the two files hold each other's former bytes. */
  lemma SwapExchangesContents(disk: Disk, dir: Path, a: string, b: string)
    requires disk.Read(Join(dir, a)).Some? && disk.Read(Join(dir, b)).Some?
    requires disk.Writable(Join(dir, a)) && disk.Writable(Join(dir, b))
    ensures var after := SwapEffect(disk, dir, a, b).0;
            && after.files[Join(dir, a)] == disk.files[Join(dir, b)]
            && after.files[Join(dir, b)] == disk.files[Join(dir, a)]
            && forall p :: p != Join(dir, a) && p != Join(dir, b) ==> SameAt(after, disk, p)
  {
    SwapExchanges(disk, dir, a, b);
    if a == b {
      assert Join(dir, a) == Join(dir, b);
    }
  }

  /** Swapping twice restores both files. */
  lemma SwapTwiceRestores(disk: Disk, dir: Path, a: string, b: string)
    requires disk.Read(Join(dir, a)).Some? && disk.Read(Join(dir, b)).Some?
    requires disk.Writable(Join(dir, a)) && disk.Writable(Join(dir, b))
    ensures SwapEffect(SwapEffect(disk, dir, a, b).0, dir, a, b).0 == disk
  {
    var pa := Join(dir, a);
    var pb := Join(dir, b);
    SwapExchanges(disk, dir, a, b);
    var once := SwapEffect(disk, dir, a, b).0;
    SwapExchanges(once, dir, a, b);
    var twice := SwapEffect(once, dir, a, b).0;
    assert twice.files == disk.files;
  }

  /** A file that cannot be read stops the swap before anything is written. */
  lemma SwapUnreadableChangesNothing(disk: Disk, dir: Path, a: string, b: string)
    requires disk.Read(Join(dir, a)).None? || disk.Read(Join(dir, b)).None?
    ensures SwapEffect(disk, dir, a, b) == (disk, FAILED)
  {
  }

  /**
   * When the first write succeeds and the second fails, the swap is left
   * half done: both files now hold the second file's bytes.
   */
  lemma SwapHalfDone(disk: Disk, dir: Path, a: string, b: string)
    requires a != b
    requires disk.Read(Join(dir, a)).Some? && disk.Read(Join(dir, b)).Some?
    requires disk.Writable(Join(dir, a)) && !disk.Writable(Join(dir, b))
    ensures var (after, status) := SwapEffect(disk, dir, a, b);
            && status == FAILED
            && after.files[Join(dir, a)] == disk.files[Join(dir, b)]
            && after.files[Join(dir, b)] == disk.files[Join(dir, b)]
  {
    assert Join(dir, a) != Join(dir, b);
  }

  /** A successful copy gives the second file the first one's bytes and leaves every other file alone. */
  lemma CopyCopies(disk: Disk, dir: Path, a: string, b: string)
    requires disk.Read(Join(dir, a)).Some? && disk.Writable(Join(dir, b))
    ensures var (after, status) := CopyEffect(disk, dir, a, b);
            && status == Msg("copied")
            && after.files[Join(dir, b)] == disk.files[Join(dir, a)]
            && after.files[Join(dir, a)] == disk.files[Join(dir, a)]
            && forall p :: p != Join(dir, b) ==> SameAt(after, disk, p)
  {
  }

  /** A copy that cannot read its source or write its target changes nothing. */
  lemma CopyFailureChangesNothing(disk: Disk, dir: Path, a: string, b: string)
    requires disk.Read(Join(dir, a)).None? || !disk.Writable(Join(dir, b))
    ensures CopyEffect(disk, dir, a, b) == (disk, FAILED)
  {
  }
}
