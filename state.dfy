/**
 * The process-wide shared state: status message, progress, the discovered
 * and filtered file lists, the repaint request and the three task flags,
 * with the accessors that update them and the file-list filter.
 */
module State {
  import opened Wrappers
  import opened Seqs

  /** A status message: a message id, or the "stage" message wrapping one (extract-all). */
  datatype Status = Msg(id: string) | Stage(stage: nat, inner: string)

  /** A progress value `done / total`, kept as the two integers it is computed from. */
  datatype Progress = Ratio(done: nat, total: nat)

  /** `AssetInfo`: a listed cache file; `realAsset` is false only for the "no files" placeholder. */
  datatype AssetInfo = AssetInfo(name: string, size: nat, lastModified: Option<int>, realAsset: bool)

  /** `create_no_files`: the placeholder published for an empty directory (its name is the "no-files" message). */
  const NO_FILES := AssetInfo("no-files", 0, None, false)

  /** How a background task ended. */
  datatype TaskOutcome =
    | NotStarted     // its gate was held, or it had nothing to do: no effect
    | Blocked        // waiting forever for the scan gate to be released
    | DirUnreadable  // `read_dir` failed; the worker returned early
    | Panicked       // the worker thread panicked
    | Completed

  /** A snapshot of all the shared state, as the datatype the specifications talk about. */
  datatype Snapshot = Snapshot(
    status: Status,
    progress: Progress,
    fileList: seq<AssetInfo>,
    filteredList: seq<AssetInfo>,
    requestRepaint: bool,
    listTaskRunning: bool,
    stopListRunning: bool,
    taskRunning: bool)
  {
    /** The state after `update_status(s)`. */
    function WithStatus(s: Status): Snapshot
    {
      this.(status := s, requestRepaint := true)
    }

    /** The state after `update_progress(p)`. */
    function WithProgress(p: Progress): Snapshot
    {
      this.(progress := p, requestRepaint := true)
    }
  }

  /** The state at start-up: idling, progress 1.0, empty lists, no task running. */
  const INITIAL := Snapshot(Msg("idling"), Ratio(1, 1), [], [], false, false, false, false)

  /** A list holding the placeholder holds nothing else. */
  predicate PlaceholderAlone(list: seq<AssetInfo>)
  {
    (exists k :: 0 <= k < |list| && !list[k].realAsset) ==> list == [NO_FILES]
  }

  /**
   * `filter_file_list`'s test: the raw name contains the lower-cased query,
   * or the lower-cased alias of the name does.
   */
  predicate Keep(info: AssetInfo, query: string, alias: string -> string)
  {
    var q := Lower(query);
    Contains(info.name, q) || Contains(Lower(alias(info.name)), q)
  }

  /** The entries of `list` that Keep accepts, in their order. */
  function Filtered(list: seq<AssetInfo>, query: string, alias: string -> string): seq<AssetInfo>
  {
    if list == [] then []
    else Filtered(list[..|list| - 1], query, alias) + (if Keep(list[|list| - 1], query, alias) then [list[|list| - 1]] else [])
  }

  /** The filtered list holds exactly the kept entries of the list. */
  lemma {:induction false} FilteredMembers(list: seq<AssetInfo>, query: string, alias: string -> string)
    ensures forall x :: x in Filtered(list, query, alias) <==> x in list && Keep(x, query, alias)
  {
    if list != [] {
      FilteredMembers(list[..|list| - 1], query, alias);
      assert list == list[..|list| - 1] + [list[|list| - 1]];
    }
  }

  /** The filtered list is an order-preserving sub-list of the list. */
  lemma {:induction false} FilteredSublist(list: seq<AssetInfo>, query: string, alias: string -> string)
    returns (idx: seq<nat>)
    ensures Embeds(Filtered(list, query, alias), list, idx)
  {
    if list == [] {
      idx := [];
    } else {
      var init := list[..|list| - 1];
      var last := list[|list| - 1];
      var before := FilteredSublist(init, query, alias);
      assert init + [last] == list;
      if Keep(last, query, alias) {
        EmbedsSnoc(Filtered(init, query, alias), init, before, last);
        idx := before + [|init|];
      } else {
        EmbedsGrow(Filtered(init, query, alias), init, before, last);
        AppendEmpty(Filtered(init, query, alias));
        idx := before;
      }
    }
  }

  /** An empty query keeps every entry. */
  lemma {:induction false} EmptyQueryKeepsAll(list: seq<AssetInfo>, alias: string -> string)
    ensures Filtered(list, "", alias) == list
  {
    if list != [] {
      EmptyQueryKeepsAll(list[..|list| - 1], alias);
      assert Lower("") == "";
      assert Keep(list[|list| - 1], "", alias);
      assert list == list[..|list| - 1] + [list[|list| - 1]];
    }
  }

  /**
   * For a file without an alias (the resolver returns the name itself) the
   * search is case-insensitive: the file is kept exactly when its
   * lower-cased name contains the lower-cased query. A raw-name match counts
   * too, but it adds nothing, since lower-casing keeps every occurrence of an
   * already lower-case query.
   */
  lemma UnaliasedFilterIgnoresCase(info: AssetInfo, query: string, alias: string -> string)
    requires alias(info.name) == info.name
    ensures Keep(info, query, alias) <==> Contains(Lower(info.name), Lower(query))
  {
    var q := Lower(query);
    if Contains(info.name, q) {
      var i: nat :| OccursAt(info.name, q, i);
      LowerKeepsOccurrence(info.name, q, i);
      LowerIdempotent(query);
    }
  }

  /**
   * The shared globals. Each method is one of the source's accessors; its
   * postcondition gives the whole new state as a Snapshot.
   */
  class AppState {
    var status: Status
    var progress: Progress
    var fileList: seq<AssetInfo>
    var filteredList: seq<AssetInfo>
    var requestRepaint: bool
    var listTaskRunning: bool
    var stopListRunning: bool
    var taskRunning: bool

    function Snap(): Snapshot
      reads this
    {
      Snapshot(status, progress, fileList, filteredList, requestRepaint, listTaskRunning, stopListRunning, taskRunning)
    }

    constructor ()
      ensures Snap() == INITIAL
    {
      status := Msg("idling");
      progress := Ratio(1, 1);
      fileList := [];
      filteredList := [];
      requestRepaint := false;
      listTaskRunning := false;
      stopListRunning := false;
      taskRunning := false;
    }

    /** `update_status`: set the status and request a repaint. */
    method UpdateStatus(value: Status)
      modifies this`status, this`requestRepaint
      ensures Snap() == old(Snap()).WithStatus(value)
    {
      status := value;
      requestRepaint := true;
    }

    /** `update_progress`: set the progress and request a repaint. */
    method UpdateProgress(value: Progress)
      modifies this`progress, this`requestRepaint
      ensures Snap() == old(Snap()).WithProgress(value)
    {
      progress := value;
      requestRepaint := true;
    }

    /** `update_file_list`: append one entry (no repaint is requested). */
    method UpdateFileList(value: AssetInfo)
      modifies this`fileList
      ensures Snap() == old(Snap()).(fileList := old(fileList) + [value])
    {
      fileList := fileList + [value];
    }

    /** `clear_file_list`. */
    method ClearFileList()
      modifies this`fileList
      ensures Snap() == old(Snap()).(fileList := [])
    {
      fileList := [];
    }

    /** `get_request_repaint`: return the flag and reset it, so each change is reported once. */
    method GetRequestRepaint() returns (r: bool)
      modifies this`requestRepaint
      ensures r == old(requestRepaint)
      ensures Snap() == old(Snap()).(requestRepaint := false)
    {
      r := requestRepaint;
      requestRepaint := false;
    }

    /** Take (`true`) or release (`false`) the single-flight gate of the extraction and delete tasks. */
    method SetTaskRunning(value: bool)
      modifies this`taskRunning
      ensures Snap() == old(Snap()).(taskRunning := value)
    {
      taskRunning := value;
    }

    /** Take or release the gate of the scan task. */
    method SetListTaskRunning(value: bool)
      modifies this`listTaskRunning
      ensures Snap() == old(Snap()).(listTaskRunning := value)
    {
      listTaskRunning := value;
    }

    /** A newer scan asks the running one to stop (the write of the preemption protocol). */
    method RequestStop()
      modifies this`stopListRunning
      ensures Snap() == old(Snap()).(stopListRunning := true)
    {
      stopListRunning := true;
    }

    /** `filter_file_list`: rebuild the filtered list from the file list. */
    method FilterFileList(query: string, alias: string -> string)
      modifies this`filteredList
      ensures Snap() == old(Snap()).(filteredList := Filtered(fileList, query, alias))
    {
      var queryLower := Lower(query);
      filteredList := [];
      var list := fileList;
      var i := 0;
      while i < |list|
        invariant 0 <= i <= |list|
        invariant filteredList == Filtered(list[..i], query, alias)
      {
        var file := list[i];
        if Contains(file.name, queryLower) || Contains(Lower(alias(file.name)), queryLower) {
          filteredList := filteredList + [file];
        }
        assert list[..i + 1][..i] == list[..i];
        i := i + 1;
      }
      assert list[..i] == list;
    }
  }

  /** Reading the repaint flag twice in a row reports a change at most once. */
  method RepaintReportedOnce(st: AppState) returns (first: bool, second: bool)
    modifies st`requestRepaint
    ensures !second
    ensures first == old(st.requestRepaint)
  {
    first := st.GetRequestRepaint();
    second := st.GetRequestRepaint();
  }
}
