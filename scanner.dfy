/**
 * The directory scanner (`refresh`) and the tail of
 * `delete_all_directory_contents`: specification functions over a
 * Snapshot of the shared state, the methods that run the source's loops
 * against them, and the properties of the scan.
 */
module Scanner {
  import opened Wrappers
  import opened Seqs
  import opened Registry
  import opened Matcher
  import opened Paths
  import opened State

  /** How many bytes of each file the scan reads. */
  const PREFIX_LEN := 2048

  /**
   * One directory entry as the scan sees it: an entry that `read_dir`
   * reported as an error, or a file with its name (None when the path has
   * no file name), its contents (None when it cannot be opened or read) and
   * its modification time.
   */
  datatype Entry = Unreadable | Entry(name: Option<string>, data: Option<seq<byte>>, modified: Option<int>)

  /** The bytes one `read` into a 2048-byte buffer returns. */
  function Prefix(data: seq<byte>): (p: seq<byte>)
    ensures |p| <= |data| && |p| <= PREFIX_LEN && p == data[..|p|]
    ensures |p| == if |data| < PREFIX_LEN then |data| else PREFIX_LEN
  {
    if |data| <= PREFIX_LEN then data else data[..PREFIX_LEN]
  }

  /** The entry is a file whose name and first bytes can be read. */
  predicate Readable(e: Entry)
  {
    e.Entry? && e.name.Some? && e.data.Some?
  }

  /** `create_asset_info` for a readable entry. */
  function InfoOf(e: Entry): (info: AssetInfo)
    requires Readable(e)
    ensures info.realAsset && info.name == e.name.value
  {
    AssetInfo(e.name.value, |e.data.value|, e.modified, true)
  }

  /** The scan lists a file under header `h`: `h` is non-empty and found in the file's first bytes. */
  predicate Announces(prefix: seq<byte>, h: string)
  {
    h != "" && HeaderMatches(prefix, h)
  }

  /** For each header of `hs`, whether `prefix` announces it. */
  function AnnounceFlags(prefix: seq<byte>, hs: seq<string>): seq<bool>
  {
    seq(|hs|, k requires 0 <= k < |hs| => Announces(prefix, hs[k]))
  }

  /** One copy of `info` for every set flag, in order. */
  function Copies(info: AssetInfo, flags: seq<bool>): seq<AssetInfo>
  {
    if flags == [] then []
    else Copies(info, flags[..|flags| - 1]) + (if flags[|flags| - 1] then [info] else [])
  }

  /** One copy of `info` for every header of `hs` announced by `prefix`, in header order. */
  function HeaderPushes(info: AssetInfo, prefix: seq<byte>, hs: seq<string>): seq<AssetInfo>
  {
    Copies(info, AnnounceFlags(prefix, hs))
  }

  /** How many headers of `hs` the bytes `prefix` announce. */
  function AnnouncedCount(prefix: seq<byte>, hs: seq<string>): nat
  {
    if hs == [] then 0
    else AnnouncedCount(prefix, hs[..|hs| - 1]) + (if Announces(prefix, hs[|hs| - 1]) then 1 else 0)
  }

  /** What the scan publishes for one entry. */
  function EntryPushes(e: Entry, hs: seq<string>): seq<AssetInfo>
  {
    if Readable(e) then HeaderPushes(InfoOf(e), Prefix(e.data.value), hs) else []
  }

  /** What the scan publishes for the entries `es`, in order. */
  function ScanPushes(es: seq<Entry>, hs: seq<string>): seq<AssetInfo>
  {
    if es == [] then [] else ScanPushes(es[..|es| - 1], hs) + EntryPushes(es[|es| - 1], hs)
  }

  /** The status after one entry. */
  function EntryStatus(e: Entry): Status
  {
    Msg(if Readable(e) then "filtering-files" else "failed-opening-file")
  }

  /** The shared state after the scan loop has handled the entries `es` out of `total`. */
  function ScanFold(s: Snapshot, es: seq<Entry>, total: nat, hs: seq<string>): Snapshot
  {
    if es == [] then s
    else
      var before := ScanFold(s, es[..|es| - 1], total, hs);
      var e := es[|es| - 1];
      var p := before.WithProgress(Ratio(|es|, total));
      p.(fileList := p.fileList + EntryPushes(e, hs)).WithStatus(EntryStatus(e))
  }

  function Min(a: nat, b: nat): nat { if a < b then a else b }

  /**
   * `refresh` of category `mode` over the directory listing `listing`
   * (None when `read_dir` fails). Another scan requests a stop just before
   * entry `stopAt` (no request when `stopAt >= |entries|`).
   */
  function RefreshEffect(s: Snapshot, mode: string, listing: Option<seq<Entry>>, stopAt: nat): (Snapshot, TaskOutcome)
  {
    if mode !in HEADERS then (s, NotStarted)
    else if s.listTaskRunning then (s.(stopListRunning := true), Blocked)
    else
      var s1 := s.(listTaskRunning := true, stopListRunning := false, fileList := []);
      match listing
      case None => (s1.WithStatus(Msg("error-check-logs")), DirUnreadable)
      case Some(es) =>
        var s2 := if |es| == 0 then s1.(fileList := [NO_FILES]) else s1;
        var n := Min(stopAt, |es|);
        var s3 := ScanFold(s2, es[..n], |es|, HEADERS[mode]);
        var s4 := if n < |es| then s3.(stopListRunning := true) else s3;
        (s4.(listTaskRunning := false).WithStatus(Msg("idling")), Completed)
  }

  /** The scan loop appends the entries' pushes and touches nothing but status, progress and repaint. */
  lemma {:induction false} ScanFoldShape(s: Snapshot, es: seq<Entry>, total: nat, hs: seq<string>)
    ensures ScanFold(s, es, total, hs).fileList == s.fileList + ScanPushes(es, hs)
    ensures ScanFold(s, es, total, hs).filteredList == s.filteredList
    ensures ScanFold(s, es, total, hs).listTaskRunning == s.listTaskRunning
    ensures ScanFold(s, es, total, hs).stopListRunning == s.stopListRunning
    ensures ScanFold(s, es, total, hs).taskRunning == s.taskRunning
    ensures es == [] ==> ScanFold(s, es, total, hs) == s
    ensures es != [] ==> ScanFold(s, es, total, hs).progress == Ratio(|es|, total)
    ensures es != [] ==> ScanFold(s, es, total, hs).status == EntryStatus(es[|es| - 1])
    ensures es != [] ==> ScanFold(s, es, total, hs).requestRepaint
  {
    ScanFoldList(s, es, total, hs);
    ScanFoldFrame(s, es, total, hs);
  }

  /** The file list after the scan loop: the old list, then the entries' pushes in order. */
  lemma {:induction false} ScanFoldList(s: Snapshot, es: seq<Entry>, total: nat, hs: seq<string>)
    ensures ScanFold(s, es, total, hs).fileList == s.fileList + ScanPushes(es, hs)
  {
    if es != [] {
      var init := es[..|es| - 1];
      ScanFoldList(s, init, total, hs);
      var pushes := EntryPushes(es[|es| - 1], hs);
      AppendAssoc(s.fileList, ScanPushes(init, hs), pushes);
    }
  }

  /** Besides the file list, the scan loop changes only status, progress and the repaint request. */
  lemma {:induction false} ScanFoldFrame(s: Snapshot, es: seq<Entry>, total: nat, hs: seq<string>)
    ensures var r := ScanFold(s, es, total, hs);
            r == s.(status := r.status, progress := r.progress, fileList := r.fileList, requestRepaint := r.requestRepaint)
  {
    if es != [] {
      ScanFoldFrame(s, es[..|es| - 1], total, hs);
    }
  }

  /** Every copy is `info`, one per set flag, and none at all exactly when no flag is set. */
  lemma {:induction false} CopiesOfInfo(info: AssetInfo, flags: seq<bool>)
    ensures forall x :: x in Copies(info, flags) ==> x == info
    ensures |Copies(info, flags)| <= |flags|
    ensures Copies(info, flags) == [] <==> forall k :: 0 <= k < |flags| ==> !flags[k]
  {
    if flags != [] {
      var init := flags[..|flags| - 1];
      CopiesOfInfo(info, init);
      assert forall k :: 0 <= k < |init| ==> init[k] == flags[k];
    }
  }

  /** One more flag adds one more copy when it is set. */
  lemma CopiesStep(info: AssetInfo, flags: seq<bool>, j: nat)
    requires j < |flags|
    ensures Copies(info, flags[..j + 1]) == Copies(info, flags[..j]) + (if flags[j] then [info] else [])
  {
    assert flags[..j + 1][..j] == flags[..j];
  }

  /**
   * An entry is pushed once per announced header and is never pushed when
   * no non-empty header of `hs` is found in its first bytes.
   */
  lemma HeaderPushesCopies(info: AssetInfo, prefix: seq<byte>, hs: seq<string>)
    ensures forall x :: x in HeaderPushes(info, prefix, hs) ==> x == info
    ensures |HeaderPushes(info, prefix, hs)| == AnnouncedCount(prefix, hs)
    ensures HeaderPushes(info, prefix, hs) == [] <==> forall k :: 0 <= k < |hs| ==> !Announces(prefix, hs[k])
  {
    var flags := AnnounceFlags(prefix, hs);
    CopiesOfInfo(info, flags);
    HeaderPushesCount(info, prefix, hs);
    assert |flags| == |hs|;
    assert forall k :: 0 <= k < |hs| ==> flags[k] == Announces(prefix, hs[k]);
  }

  /** One more header adds one more push exactly when it is announced. */
  lemma HeaderPushesSnoc(info: AssetInfo, prefix: seq<byte>, hs: seq<string>)
    requires hs != []
    ensures HeaderPushes(info, prefix, hs)
            == HeaderPushes(info, prefix, hs[..|hs| - 1]) + (if Announces(prefix, hs[|hs| - 1]) then [info] else [])
  {
    var flags := AnnounceFlags(prefix, hs);
    assert flags[..|flags| - 1] == AnnounceFlags(prefix, hs[..|hs| - 1]);
  }

  /** There is no early exit: the number of pushes is the number of announced headers. */
  lemma {:induction false} HeaderPushesCount(info: AssetInfo, prefix: seq<byte>, hs: seq<string>)
    ensures |HeaderPushes(info, prefix, hs)| == AnnouncedCount(prefix, hs)
  {
    if hs != [] {
      HeaderPushesSnoc(info, prefix, hs);
      HeaderPushesCount(info, prefix, hs[..|hs| - 1]);
    }
  }

  /**
   * The scan and the extractor agree: a readable file is listed under a
   * category exactly when the header search of extraction finds one of the
   * category's headers in the same first bytes.
   */
  lemma ListedIffHeaderFound(e: Entry, mode: string)
    requires Readable(e) && mode in HEADERS
    ensures EntryPushes(e, HEADERS[mode]) != [] <==> FindHeader(mode, Prefix(e.data.value)) != INVALID
  {
    var hs := HEADERS[mode];
    var p := Prefix(e.data.value);
    HeaderPushesCopies(InfoOf(e), p, hs);
    forall k | 0 <= k < |hs|
      ensures Announces(p, hs[k]) == HeaderMatches(p, hs[k])
    {
      EmptyHeaderNeverMatches(p);
    }
  }

  /**
   * There is no early exit per file: a sound whose first bytes hold both an
   * Ogg page and an ID3 frame (with the "binary/" marker) is listed twice.
   */
  lemma SoundListedTwice(e: Entry)
    requires Readable(e)
    requires HeaderMatches(Prefix(e.data.value), "OggS") && HeaderMatches(Prefix(e.data.value), "ID3")
    ensures EntryPushes(e, HEADERS["sounds"]) == [InfoOf(e), InfoOf(e)]
  {
    var hs := HEADERS["sounds"];
    assert hs == ["OggS", "ID3"];
    AnnouncedTwice(e, hs);
  }

  /** An entry whose prefix announces both headers of a two-header category is pushed twice. */
  lemma AnnouncedTwice(e: Entry, hs: seq<string>)
    requires Readable(e) && |hs| == 2
    requires Announces(Prefix(e.data.value), hs[0]) && Announces(Prefix(e.data.value), hs[1])
    ensures EntryPushes(e, hs) == [InfoOf(e), InfoOf(e)]
  {
    var flags := AnnounceFlags(Prefix(e.data.value), hs);
    assert flags[0] && flags[1];
    CopiesOfTwo(InfoOf(e), flags);
  }

  lemma CopiesOfTwo(info: AssetInfo, flags: seq<bool>)
    requires |flags| == 2 && flags[0] && flags[1]
    ensures Copies(info, flags) == [info, info]
  {
    assert flags[..1][..0] == [];
    assert Copies(info, flags[..1]) == [info];
  }

  /** Only real assets are ever pushed for entries. */
  lemma {:induction false} ScanPushesReal(es: seq<Entry>, hs: seq<string>)
    ensures forall x :: x in ScanPushes(es, hs) ==> x.realAsset
  {
    if es != [] {
      ScanPushesReal(es[..|es| - 1], hs);
      var e := es[|es| - 1];
      if Readable(e) {
        HeaderPushesCopies(InfoOf(e), Prefix(e.data.value), hs);
      }
    }
  }

  /** Scanning `a` then `b` publishes what scanning `a` publishes, then what `b` does. */
  lemma {:induction false} ScanPushesAppend(a: seq<Entry>, b: seq<Entry>, hs: seq<string>)
    ensures ScanPushes(a + b, hs) == ScanPushes(a, hs) + ScanPushes(b, hs)
    decreases |b|
  {
    if b == [] {
      assert a + b == a;
    } else {
      var b' := b[..|b| - 1];
      assert (a + b)[..|a + b| - 1] == a + b';
      assert (a + b)[|a + b| - 1] == b[|b| - 1];
      ScanPushesAppend(a, b', hs);
      AppendAssoc(ScanPushes(a, hs), ScanPushes(b', hs), EntryPushes(b[|b| - 1], hs));
    }
  }

  /** The list a completed scan publishes: the placeholder for an empty directory, else the pushes before the stop. */
  lemma RefreshFileList(s: Snapshot, mode: string, es: seq<Entry>, stopAt: nat)
    requires mode in HEADERS && !s.listTaskRunning
    ensures RefreshEffect(s, mode, Some(es), stopAt).0.fileList
         == if |es| == 0 then [NO_FILES] else ScanPushes(es[..Min(stopAt, |es|)], HEADERS[mode])
  {
    var s1 := s.(listTaskRunning := true, stopListRunning := false, fileList := []);
    var s2 := if |es| == 0 then s1.(fileList := [NO_FILES]) else s1;
    var n := Min(stopAt, |es|);
    ScanFoldShape(s2, es[..n], |es|, HEADERS[mode]);
    if |es| == 0 {
      assert es[..n] == [];
    }
  }

  /** The state a completed scan leaves: placeholder iff the directory is empty, the pushes otherwise. */
  lemma RefreshCompleted(s: Snapshot, mode: string, es: seq<Entry>, stopAt: nat)
    requires mode in HEADERS && !s.listTaskRunning
    ensures var (r, outcome) := RefreshEffect(s, mode, Some(es), stopAt);
            && outcome == Completed
            && r.fileList == (if |es| == 0 then [NO_FILES] else ScanPushes(es[..Min(stopAt, |es|)], HEADERS[mode]))
            && ((exists k :: 0 <= k < |r.fileList| && !r.fileList[k].realAsset) <==> |es| == 0)
            && PlaceholderAlone(r.fileList)
            && !r.listTaskRunning
            && r.stopListRunning == (stopAt < |es|)
            && r.status == Msg("idling")
            && (0 < Min(stopAt, |es|) ==> r.progress == Ratio(Min(stopAt, |es|), |es|))
            && r.taskRunning == s.taskRunning && r.filteredList == s.filteredList
  {
    var s1 := s.(listTaskRunning := true, stopListRunning := false, fileList := []);
    var s2 := if |es| == 0 then s1.(fileList := [NO_FILES]) else s1;
    var n := Min(stopAt, |es|);
    ScanFoldShape(s2, es[..n], |es|, HEADERS[mode]);
    ScanPushesReal(es[..n], HEADERS[mode]);
    var r := RefreshEffect(s, mode, Some(es), stopAt).0;
    if |es| == 0 {
      assert es[..n] == [];
      assert !r.fileList[0].realAsset;
    } else {
      assert forall x :: x in r.fileList ==> x.realAsset;
      assert forall k :: 0 <= k < |r.fileList| ==> r.fileList[k] in r.fileList;
    }
  }

  /** A stop request keeps what was published before it: the result is a prefix of the full scan's. */
  lemma PreemptedScanIsPrefix(s: Snapshot, mode: string, es: seq<Entry>, stopAt: nat)
    requires mode in HEADERS && !s.listTaskRunning && |es| > 0
    ensures var partial := RefreshEffect(s, mode, Some(es), stopAt).0.fileList;
            var full := RefreshEffect(s, mode, Some(es), |es|).0.fileList;
            |partial| <= |full| && full[..|partial|] == partial
  {
    RefreshFileList(s, mode, es, stopAt);
    RefreshFileList(s, mode, es, |es|);
    assert es[..Min(|es|, |es|)] == es;
    ScanPushesPrefix(es, Min(stopAt, |es|), HEADERS[mode]);
  }

  /** The pushes of the first `n` entries are a prefix of the pushes of all of them. */
  lemma ScanPushesPrefix(es: seq<Entry>, n: nat, hs: seq<string>)
    requires n <= |es|
    ensures var part := ScanPushes(es[..n], hs);
            var all := ScanPushes(es, hs);
            |part| <= |all| && all[..|part|] == part
  {
    assert es == es[..n] + es[n..];
    ScanPushesAppend(es[..n], es[n..], hs);
  }

  /** A mode that is not a category, such as the music tab, leaves the state untouched. */
  lemma RefreshUnknownMode(s: Snapshot, listing: Option<seq<Entry>>, stopAt: nat)
    ensures RefreshEffect(s, "music", listing, stopAt) == (s, NotStarted)
  {
    MusicIsNotACategory();
  }

  /**
   * An unreadable directory returns with the scan gate still set, so every
   * later scan of a category waits for it forever, only raising the stop flag.
   */
  lemma UnreadableDirectoryBlocksLaterScans(s: Snapshot, mode: string, mode2: string, listing: Option<seq<Entry>>, stopAt: nat)
    requires mode in HEADERS && mode2 in HEADERS && !s.listTaskRunning
    ensures var (r, outcome) := RefreshEffect(s, mode, None, stopAt);
            && outcome == DirUnreadable && r.listTaskRunning && r.fileList == []
            && RefreshEffect(r, mode2, listing, stopAt) == (r.(stopListRunning := true), Blocked)
  {
  }

  /** Pushes the matching headers' copies of `info`: the inner loop of `refresh`. */
  method PushMatches(st: AppState, info: AssetInfo, prefix: seq<byte>, headers: seq<string>)
    modifies st`fileList
    ensures st.Snap() == old(st.Snap()).(fileList := old(st.fileList) + HeaderPushes(info, prefix, headers))
  {
    ghost var flags := AnnounceFlags(prefix, headers);
    var j := 0;
    while j < |headers|
      invariant 0 <= j <= |headers|
      invariant st.Snap() == old(st.Snap()).(fileList := old(st.fileList) + Copies(info, flags[..j]))
    {
      var header := headers[j];
      assert flags[j] == (header != "" && BytesContains(prefix, AsciiBytes(header)));
      CopiesStep(info, flags, j);
      AppendAssoc(old(st.fileList), Copies(info, flags[..j]), if flags[j] then [info] else []);
      if header != "" {
        if BytesContains(prefix, AsciiBytes(header)) {
          st.UpdateFileList(info);
        }
      }
      j := j + 1;
    }
    assert flags[..j] == flags;
  }

  /** `refresh`, run to the end (as when its thread is joined). */
  method Refresh(st: AppState, mode: string, listing: Option<seq<Entry>>, stopAt: nat) returns (outcome: TaskOutcome)
    modifies st
    ensures (st.Snap(), outcome) == RefreshEffect(old(st.Snap()), mode, listing, stopAt)
  {
    if mode !in HEADERS {
      return NotStarted;
    }
    var headers := HEADERS[mode];
    if st.listTaskRunning {
      st.RequestStop();
      return Blocked;
    }
    st.SetListTaskRunning(true);
    st.stopListRunning := false;
    st.ClearFileList();
    if listing.None? {
      st.UpdateStatus(Msg("error-check-logs"));
      return DirUnreadable;
    }
    var entries := listing.value;
    if |entries| == 0 {
      st.UpdateFileList(NO_FILES);
    }
    ghost var s1 := old(st.Snap()).(listTaskRunning := true, stopListRunning := false, fileList := []);
    assert st.Snap() == if |entries| == 0 then s1.(fileList := [NO_FILES]) else s1;
    ScanEntries(st, entries, HEADERS[mode], stopAt);
    st.SetListTaskRunning(false);
    st.UpdateStatus(Msg("idling"));
    return Completed;
  }

  /**
   * The scan loop of `refresh`: one step per entry until the stop flag is
   * raised, which happens just before entry `stopAt`.
   */
  method ScanEntries(st: AppState, entries: seq<Entry>, headers: seq<string>, stopAt: nat)
    requires !st.stopListRunning
    modifies st`status, st`progress, st`fileList, st`requestRepaint, st`stopListRunning
    ensures var n := Min(stopAt, |entries|);
            var s3 := ScanFold(old(st.Snap()), entries[..n], |entries|, headers);
            st.Snap() == if n < |entries| then s3.(stopListRunning := true) else s3
  {
    ghost var start := st.Snap();
    var total := |entries|;
    var count := 0;
    while count < total
      invariant count <= total && count <= stopAt
      invariant st.Snap() == ScanFold(start, entries[..count], total, headers)
      invariant !st.stopListRunning
    {
      if count == stopAt {
        st.RequestStop();
      }
      if st.stopListRunning {
        break;
      }
      ghost var before := st.Snap();
      count := count + 1;
      st.UpdateProgress(Ratio(count, total));
      var entry := entries[count - 1];
      if Readable(entry) {
        PushMatches(st, InfoOf(entry), Prefix(entry.data.value), headers);
        st.UpdateStatus(Msg("filtering-files"));
      } else {
        st.UpdateStatus(Msg("failed-opening-file"));
      }
      assert st.Snap() == before.WithProgress(Ratio(count, total)).(fileList := before.fileList + EntryPushes(entry, headers))
                                .WithStatus(EntryStatus(entry));
      assert entries[..count][..count - 1] == entries[..count - 1];
      assert entries[..count][count - 1] == entry;
    }
    assert count == Min(stopAt, total);
  }

  /** The per-entry result of deleting one top-level entry of the cache directory. */
  datatype Removal = EntryError | Removed | RemoveFailed

  /** The shared state after the delete loop has handled `rs` out of `total`. */
  function DeleteFold(s: Snapshot, rs: seq<Removal>, total: nat): Snapshot
  {
    if rs == [] then s
    else
      DeleteFold(s, rs[..|rs| - 1], total).WithProgress(Ratio(|rs|, total))
        .WithStatus(Msg(if rs[|rs| - 1] == Removed then "deleting-files" else "failed-deleting-file"))
  }

  /**
   * `delete_all_directory_contents`: the sanity check on the path panics
   * for an empty path or the root; a held task gate makes it a no-op; an
   * unreadable directory returns with the gate still held; otherwise the
   * entries are removed and the list shows the placeholder.
   */
  function DeleteEffect(s: Snapshot, dir: Path, listing: Option<seq<Removal>>): (Snapshot, TaskOutcome)
  {
    if Refused(dir) then (s, Panicked)
    else if s.taskRunning then (s, NotStarted)
    else
      var s1 := s.(taskRunning := true);
      match listing
      case None => (s1.WithStatus(Msg("error-check-logs")), DirUnreadable)
      case Some(rs) =>
        var s2 := DeleteFold(s1, rs, |rs|);
        (s2.(fileList := [NO_FILES], taskRunning := false).WithStatus(Msg("idling")), Completed)
  }

  /** The delete loop changes only status, progress and repaint; progress ends at |rs|/|rs|. */
  lemma {:induction false} DeleteFoldShape(s: Snapshot, rs: seq<Removal>, total: nat)
    ensures var r := DeleteFold(s, rs, total);
            && r == s.(status := r.status, progress := r.progress, requestRepaint := r.requestRepaint)
            && (rs != [] ==> r.progress == Ratio(|rs|, total) && r.requestRepaint)
  {
    if rs != [] {
      DeleteFoldShape(s, rs[..|rs| - 1], total);
    }
  }

  /** A finished delete shows exactly the placeholder and releases the gate. */
  lemma DeleteCompleted(s: Snapshot, dir: Path, rs: seq<Removal>)
    requires !Refused(dir) && !s.taskRunning
    ensures var (r, outcome) := DeleteEffect(s, dir, Some(rs));
            && outcome == Completed && r.fileList == [NO_FILES] && !r.taskRunning
            && r.status == Msg("idling") && PlaceholderAlone(r.fileList)
            && (|rs| > 0 ==> r.progress == Ratio(|rs|, |rs|))
            && r.listTaskRunning == s.listTaskRunning && r.filteredList == s.filteredList
  {
    DeleteFoldShape(s.(taskRunning := true), rs, |rs|);
  }

  /** Deleting the root or an empty path is refused before anything changes. */
  lemma DeleteRefusesRoot(s: Snapshot, listing: Option<seq<Removal>>)
    ensures DeleteEffect(s, Empty, listing) == (s, Panicked)
    ensures DeleteEffect(s, Named(""), listing) == (s, Panicked)
    ensures DeleteEffect(s, ROOT, listing) == (s, Panicked)
  {
  }

  /** The removal loop of `delete_all_directory_contents`. */
  method RunRemovals(st: AppState, entries: seq<Removal>)
    modifies st`status, st`progress, st`requestRepaint
    ensures st.Snap() == DeleteFold(old(st.Snap()), entries, |entries|)
  {
    ghost var start := st.Snap();
    var total := |entries|;
    var count := 0;
    while count < total
      invariant count <= total
      invariant st.Snap() == DeleteFold(start, entries[..count], total)
    {
      var entry := entries[count];
      count := count + 1;
      st.UpdateProgress(Ratio(count, total));
      if entry == Removed {
        st.UpdateStatus(Msg("deleting-files"));
      } else {
        st.UpdateStatus(Msg("failed-deleting-file"));
      }
      assert entries[..count][..count - 1] == entries[..count - 1];
    }
    assert entries[..count] == entries;
  }

  /** `delete_all_directory_contents`, run to the end. */
  method DeleteAllDirectoryContents(st: AppState, dir: Path, listing: Option<seq<Removal>>) returns (outcome: TaskOutcome)
    modifies st
    ensures (st.Snap(), outcome) == DeleteEffect(old(st.Snap()), dir, listing)
  {
    if Refused(dir) {
      return Panicked;
    }
    if st.taskRunning {
      return NotStarted;
    }
    st.SetTaskRunning(true);
    if listing.None? {
      st.UpdateStatus(Msg("error-check-logs"));
      return DirUnreadable;
    }
    ghost var s1 := st.Snap();
    RunRemovals(st, listing.value);
    ghost var s2 := DeleteFold(s1, listing.value, |listing.value|);
    st.ClearFileList();
    st.UpdateFileList(NO_FILES);
    EmptyAppend([NO_FILES]);
    st.SetTaskRunning(false);
    st.UpdateStatus(Msg("idling"));
    return Completed;
  }
}
