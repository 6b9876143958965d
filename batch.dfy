/**
 * The batch operations: `extract_file` as a state-changing call,
 * `extract_dir`, the three stages of `extract_all`, `swap_assets` and
 * `copy_assets`. Each loop is a method proved against a fold over a
 * Snapshot of the shared state and the Disk.
 */
module Batch {
  import opened Wrappers
  import opened Seqs
  import opened Registry
  import opened Paths
  import opened FileSystem
  import opened State
  import opened Extractor
  import opened Scanner

  /** Where the loops stand: the shared state, the disk, and whether the worker thread has panicked. */
  datatype Run = Run(state: Snapshot, disk: Disk, panicked: bool)

  /** What a batch operation leaves behind. */
  datatype BatchResult = BatchResult(state: Snapshot, disk: Disk, outcome: TaskOutcome)

  /** Whether destinations are named after the asset's alias or its file name. */
  datatype Naming = Naming(useAlias: bool, alias: string -> string)

  function AssetName(naming: Naming, name: string): string
  {
    if naming.useAlias then naming.alias(name) else name
  }

  /** The status update `extract_file` makes, if any. */
  function Reported(s: Snapshot, x: ExtractResult): Snapshot
  {
    if x.status.Some? then s.WithStatus(x.status.value) else s
  }

  /** `extract_file`: the disk and status change as ExtractEffect says. */
  method ExtractFile(st: AppState, disk: Disk, job: Job) returns (outcome: ExtractOutcome, after: Disk)
    modifies st`status, st`requestRepaint
    ensures var x := ExtractEffect(disk, job);
            outcome == x.outcome && after == x.disk && st.Snap() == Reported(old(st.Snap()), x)
  {
    var x := ExtractEffect(disk, job);
    if x.status.Some? {
      st.UpdateStatus(x.status.value);
    }
    outcome, after := x.outcome, x.disk;
  }

  /** The two extraction loops that share a shape: `extract_dir`'s and stage 3 of `extract_all`. */
  datatype LoopKind = DirLoop | StageThree

  /** Progress after job `k` of `t`: k/t, or (k/t + 2)/3 in stage 3. */
  function JobProgress(kind: LoopKind, k: nat, t: nat): Progress
  {
    match kind
    case DirLoop => Ratio(k, t)
    case StageThree => Ratio(k + 2 * t, 3 * t)
  }

  /** Status after a job that returned: `extract_dir` reports a failure when the returned path is empty. */
  function JobStatus(kind: LoopKind, outcome: ExtractOutcome): Status
  {
    match kind
    case DirLoop => Msg(if outcome == Returned(Empty) then "failed-extracting-file" else "extracting-files")
    case StageThree => Stage(3, "extracting-files")
  }

  /** The state after the extraction loop has run the jobs `jobs` out of `t`; a panic ends the thread. */
  function JobsFold(r: Run, jobs: seq<Job>, t: nat, kind: LoopKind): Run
  {
    if jobs == [] then r
    else
      var p := JobsFold(r, jobs[..|jobs| - 1], t, kind);
      if p.panicked then p else JobStep(p, ExtractEffect(p.disk, jobs[|jobs| - 1]), |jobs|, t, kind)
  }

  /** Job `k` of `t`, whose extraction gives `x`: the progress is set first; a panic ends the thread. */
  function JobStep(p: Run, x: ExtractResult, k: nat, t: nat, kind: LoopKind): Run
  {
    var s1 := p.state.WithProgress(JobProgress(kind, k, t));
    if x.outcome.Panic? then Run(s1, p.disk, true)
    else Run(Reported(s1, x).WithStatus(JobStatus(kind, x.outcome)), x.disk, false)
  }

  /** One job touches only status, progress and repaint. */
  lemma JobStepShape(p: Run, x: ExtractResult, k: nat, t: nat, kind: LoopKind)
    ensures var q := JobStep(p, x, k, t, kind).state;
            q == p.state.(status := q.status, progress := q.progress, requestRepaint := q.requestRepaint)
  {
  }

  /** Once the thread has panicked, the later jobs change nothing. */
  lemma {:induction false} PanicIsFinal(r: Run, jobs: seq<Job>, i: nat, t: nat, kind: LoopKind)
    requires i <= |jobs| && JobsFold(r, jobs[..i], t, kind).panicked
    ensures JobsFold(r, jobs, t, kind) == JobsFold(r, jobs[..i], t, kind)
    decreases |jobs| - i
  {
    if i < |jobs| {
      assert jobs[..i + 1][..i] == jobs[..i];
      PanicIsFinal(r, jobs, i + 1, t, kind);
    } else {
      assert jobs[..i] == jobs;
    }
  }

  /**
   * The loop touches only status, progress and repaint: the gate, both
   * lists and the scan flags are as they were.
   */
  lemma {:induction false} JobsFoldShape(r: Run, jobs: seq<Job>, t: nat, kind: LoopKind)
    ensures var q := JobsFold(r, jobs, t, kind).state;
            q == r.state.(status := q.status, progress := q.progress, requestRepaint := q.requestRepaint)
  {
    if jobs != [] {
      var init := jobs[..|jobs| - 1];
      JobsFoldShape(r, init, t, kind);
      var q := JobsFold(r, init, t, kind);
      JobStepShape(q, ExtractEffect(q.disk, jobs[|jobs| - 1]), |jobs|, t, kind);
    }
  }

  /** Once the loop has run a job without a panic, the progress is that job's. */
  lemma {:induction false} JobsFoldProgress(r: Run, jobs: seq<Job>, t: nat, kind: LoopKind)
    requires !r.panicked && jobs != []
    ensures !JobsFold(r, jobs, t, kind).panicked ==> JobsFold(r, jobs, t, kind).state.progress == JobProgress(kind, |jobs|, t)
  {
    var init := jobs[..|jobs| - 1];
    if init != [] {
      JobsFoldProgress(r, init, t, kind);
    }
  }

  /** A path an extraction of `job` can write: the destination itself or it with an extension set. */
  predicate Target(p: Path, job: Job)
  {
    p == job.dest || (p.WithExt? && p.base == job.dest)
  }

  /** One extraction writes nothing but its own target. */
  lemma ExtractFrame(disk: Disk, job: Job, p: Path)
    requires !Target(p, job)
    ensures SameAt(ExtractEffect(disk, job).disk, disk, p)
    ensures ExtractEffect(disk, job).disk.unreadable == disk.unreadable
    ensures ExtractEffect(disk, job).disk.readOnly == disk.readOnly
  {
  }

  /** The extraction loop writes nothing but the targets of its jobs. */
  lemma {:induction false} JobsFoldFrame(r: Run, jobs: seq<Job>, t: nat, kind: LoopKind, p: Path)
    requires forall k :: 0 <= k < |jobs| ==> !Target(p, jobs[k])
    ensures SameAt(JobsFold(r, jobs, t, kind).disk, r.disk, p)
  {
    if jobs != [] {
      var init := jobs[..|jobs| - 1];
      assert forall k :: 0 <= k < |init| ==> init[k] == jobs[k];
      JobsFoldFrame(r, init, t, kind, p);
      var q := JobsFold(r, init, t, kind);
      if !q.panicked {
        ExtractFrame(q.disk, jobs[|jobs| - 1], p);
      }
    }
  }

  /** The extraction loop of `extract_dir` and of stage 3 of `extract_all`. */
  method RunJobs(st: AppState, disk: Disk, jobs: seq<Job>, kind: LoopKind) returns (panicked: bool, after: Disk)
    modifies st`status, st`progress, st`requestRepaint
    ensures Run(st.Snap(), after, panicked) == JobsFold(Run(old(st.Snap()), disk, false), jobs, |jobs|, kind)
  {
    ghost var start := Run(st.Snap(), disk, false);
    var total := |jobs|;
    var count := 0;
    after := disk;
    while count < total
      invariant count <= total
      invariant JobsFold(start, jobs[..count], total, kind) == Run(st.Snap(), after, false)
    {
      var job := jobs[count];
      count := count + 1;
      assert jobs[..count][..count - 1] == jobs[..count - 1];
      st.UpdateProgress(JobProgress(kind, count, total));
      var outcome, written := ExtractFile(st, after, job);
      if outcome.Panic? {
        // the worker thread dies here
        PanicIsFinal(start, jobs, count, total, kind);
        return true, after;
      }
      after := written;
      st.UpdateStatus(JobStatus(kind, outcome));
    }
    assert jobs[..count] == jobs;
    return false, after;
  }

  /** The job `extract_dir` runs for one listed asset. */
  function DirJob(dir: Path, destination: Path, mode: string, naming: Naming, info: AssetInfo): Job
  {
    Job(Join(dir, info.name), mode, Join(destination, AssetName(naming, info.name)), true)
  }

  /** The jobs `extract_dir` runs, one per entry of the file list, in order. */
  function DirJobs(list: seq<AssetInfo>, dir: Path, destination: Path, mode: string, naming: Naming): (jobs: seq<Job>)
    ensures |jobs| == |list|
  {
    seq(|list|, i requires 0 <= i < |list| => DirJob(dir, destination, mode, naming, list[i]))
  }

  /**
   * The part of `extract_dir` after the optional refresh, from the state
   * `s`: it extracts every entry of the file list and releases the gate
   * unless a job panicked.
   */
  function ListedEffect(s: Snapshot, disk: Disk, dir: Path, destination: Path, mode: string, naming: Naming): BatchResult
  {
    var jobs := DirJobs(s.fileList, dir, destination, mode, naming);
    var r := JobsFold(Run(s, disk, false), jobs, |jobs|, DirLoop);
    if r.panicked then BatchResult(r.state, r.disk, Panicked)
    else BatchResult(r.state.(taskRunning := false).WithStatus(Msg("all-extracted")), r.disk, Completed)
  }

  /** The optional refresh `extract_dir` runs first: `refresh` of `mode`, or nothing. */
  function RefreshedFirst(s: Snapshot, mode: string, refreshFirst: bool, listing: Option<seq<Entry>>, stopAt: nat)
    : (Snapshot, TaskOutcome)
  {
    if refreshFirst then RefreshEffect(s, mode, listing, stopAt) else (s, NotStarted)
  }

  /**
   * `extract_dir` of `dir` into `destination`: a held task gate makes it a
   * no-op; otherwise it takes the gate and runs its thread.
   */
  function ExtractDirEffect(s: Snapshot, disk: Disk, dir: Path, destination: Path, mode: string, naming: Naming,
                            refreshFirst: bool, listing: Option<seq<Entry>>, stopAt: nat): BatchResult
  {
    if s.taskRunning then BatchResult(s, disk, NotStarted)
    else DirThreadEffect(s.(taskRunning := true), disk, dir, destination, mode, naming, refreshFirst, listing, stopAt)
  }

  /**
   * `extract_dir`'s thread, which holds the gate: it optionally refreshes
   * the list first (a refresh that has to wait for another scan never
   * returns), and then extracts the listed files.
   */
  function DirThreadEffect(s: Snapshot, disk: Disk, dir: Path, destination: Path, mode: string, naming: Naming,
                           refreshFirst: bool, listing: Option<seq<Entry>>, stopAt: nat): BatchResult
  {
    var refreshed := RefreshedFirst(s, mode, refreshFirst, listing, stopAt);
    if refreshed.1 == Blocked then BatchResult(refreshed.0, disk, Blocked)
    else ListedEffect(refreshed.0, disk, dir, destination, mode, naming)
  }

  /** The optional refresh at the start of `extract_dir`'s thread. */
  method RefreshFirst(st: AppState, mode: string, refreshFirst: bool, listing: Option<seq<Entry>>, stopAt: nat)
    returns (outcome: TaskOutcome)
    modifies st
    ensures (st.Snap(), outcome) == RefreshedFirst(old(st.Snap()), mode, refreshFirst, listing, stopAt)
  {
    outcome := NotStarted;
    if refreshFirst {
      outcome := Refresh(st, mode, listing, stopAt);
    }
  }

  /** The extraction of the listed files and the release of the gate in `extract_dir`'s thread. */
  method ExtractListed(st: AppState, disk: Disk, dir: Path, destination: Path, mode: string, naming: Naming)
    returns (outcome: TaskOutcome, after: Disk)
    modifies st`status, st`progress, st`requestRepaint, st`taskRunning
    ensures BatchResult(st.Snap(), after, outcome) == ListedEffect(old(st.Snap()), disk, dir, destination, mode, naming)
  {
    var fileList := st.fileList;
    var jobs := DirJobs(fileList, dir, destination, mode, naming);
    var panicked;
    panicked, after := RunJobs(st, disk, jobs, DirLoop);
    if panicked {
      return Panicked, after;
    }
    st.SetTaskRunning(false);
    st.UpdateStatus(Msg("all-extracted"));
    return Completed, after;
  }

  /** `extract_dir`'s thread once it holds the gate. */
  method DirThread(st: AppState, disk: Disk, dir: Path, destination: Path, mode: string, naming: Naming,
                   refreshFirst: bool, listing: Option<seq<Entry>>, stopAt: nat)
    returns (outcome: TaskOutcome, after: Disk)
    modifies st
    ensures BatchResult(st.Snap(), after, outcome)
         == DirThreadEffect(old(st.Snap()), disk, dir, destination, mode, naming, refreshFirst, listing, stopAt)
  {
    var refreshed := RefreshFirst(st, mode, refreshFirst, listing, stopAt);
    if refreshed == Blocked {
      return Blocked, disk;
    }
    outcome, after := ExtractListed(st, disk, dir, destination, mode, naming);
  }

  /** `extract_dir`, run to the end (as when its thread is joined). */
  method ExtractDir(st: AppState, disk: Disk, dir: Path, destination: Path, mode: string, naming: Naming,
                    refreshFirst: bool, listing: Option<seq<Entry>>, stopAt: nat)
    returns (outcome: TaskOutcome, after: Disk)
    modifies st
    ensures BatchResult(st.Snap(), after, outcome)
         == ExtractDirEffect(old(st.Snap()), disk, dir, destination, mode, naming, refreshFirst, listing, stopAt)
  {
    if st.taskRunning {
      return NotStarted, disk;
    }
    st.SetTaskRunning(true);
    outcome, after := DirThread(st, disk, dir, destination, mode, naming, refreshFirst, listing, stopAt);
  }

  /** A held task gate turns `extract_dir` into a no-op. */
  lemma ExtractDirBusy(s: Snapshot, disk: Disk, dir: Path, destination: Path, mode: string, naming: Naming,
                       refreshFirst: bool, listing: Option<seq<Entry>>, stopAt: nat)
    requires s.taskRunning
    ensures ExtractDirEffect(s, disk, dir, destination, mode, naming, refreshFirst, listing, stopAt)
         == BatchResult(s, disk, NotStarted)
  {
  }

  /**
   * The extraction of the listed files keeps both lists and the scan flag;
   * it ends with the gate released, the status "all-extracted" and a full
   * bar, or, after a panic, with the gate as it was.
   */
  lemma ListedEnds(s: Snapshot, disk: Disk, dir: Path, destination: Path, mode: string, naming: Naming)
    ensures var r := ListedEffect(s, disk, dir, destination, mode, naming);
            && r.state.fileList == s.fileList && r.state.filteredList == s.filteredList
            && r.state.listTaskRunning == s.listTaskRunning
            && (r.outcome == Panicked || r.outcome == Completed)
            && (r.outcome == Panicked ==> r.state.taskRunning == s.taskRunning)
            && (r.outcome == Completed ==> !r.state.taskRunning && r.state.status == Msg("all-extracted"))
            && (r.outcome == Completed && |s.fileList| > 0 ==> r.state.progress == Ratio(|s.fileList|, |s.fileList|))
  {
    var jobs := DirJobs(s.fileList, dir, destination, mode, naming);
    JobsFoldShape(Run(s, disk, false), jobs, |jobs|, DirLoop);
    if jobs != [] {
      JobsFoldProgress(Run(s, disk, false), jobs, |jobs|, DirLoop);
    }
  }

  /**
   * The optional refresh: skipped, or for a category, blocked by a running
   * scan (raising its stop flag), or it replaces the file list with the
   * directory's pushes (emptied when the directory is unreadable).
   */
  lemma RefreshedFirstList(s: Snapshot, mode: string, refreshFirst: bool, listing: Option<seq<Entry>>, stopAt: nat)
    ensures var (t, o) := RefreshedFirst(s, mode, refreshFirst, listing, stopAt);
            && (o == Blocked <==> refreshFirst && mode in HEADERS && s.listTaskRunning)
            && (o == Blocked ==> t == s.(stopListRunning := true))
            && (!refreshFirst || mode !in HEADERS ==> t == s)
            && t.taskRunning == s.taskRunning && t.filteredList == s.filteredList
            && (refreshFirst && mode in HEADERS && !s.listTaskRunning ==>
                  t.fileList == match listing {
                    case None => []
                    case Some(es) => if |es| == 0 then [NO_FILES] else ScanPushes(es[..Min(stopAt, |es|)], HEADERS[mode])
                  })
  {
    if refreshFirst && mode in HEADERS && !s.listTaskRunning && listing.Some? {
      RefreshCompleted(s, mode, listing.value, stopAt);
    }
  }

  /**
   * `extract_dir` run from a free gate: a refresh blocked by a running scan
   * keeps the gate held forever; otherwise the list left by the optional
   * refresh is kept, and the call either panics, leaving the gate held, or
   * completes, releasing it and reporting "all-extracted" with a full bar.
   */
  lemma ExtractDirEnds(s: Snapshot, disk: Disk, dir: Path, destination: Path, mode: string, naming: Naming,
                       refreshFirst: bool, listing: Option<seq<Entry>>, stopAt: nat)
    requires !s.taskRunning
    ensures var r := ExtractDirEffect(s, disk, dir, destination, mode, naming, refreshFirst, listing, stopAt);
            var listed := RefreshedFirst(s.(taskRunning := true), mode, refreshFirst, listing, stopAt).0.fileList;
            && (r.outcome == Blocked <==> refreshFirst && mode in HEADERS && s.listTaskRunning)
            && (r.outcome == Blocked ==> r.state == s.(taskRunning := true, stopListRunning := true) && r.disk == disk)
            && (r.outcome != Blocked ==> r.outcome == Panicked || r.outcome == Completed)
            && (r.outcome != Blocked ==> r.state.fileList == listed && r.state.filteredList == s.filteredList)
            && (!refreshFirst || mode !in HEADERS ==> listed == s.fileList && r.state.listTaskRunning == s.listTaskRunning)
            && (r.outcome == Panicked ==> r.state.taskRunning)
            && (r.outcome == Completed ==> !r.state.taskRunning && r.state.status == Msg("all-extracted"))
            && (r.outcome == Completed && |listed| > 0 ==> r.state.progress == Ratio(|listed|, |listed|))
  {
    var held := s.(taskRunning := true);
    RefreshedFirstList(held, mode, refreshFirst, listing, stopAt);
    var refreshed := RefreshedFirst(held, mode, refreshFirst, listing, stopAt);
    if refreshed.1 != Blocked {
      ListedEnds(refreshed.0, disk, dir, destination, mode, naming);
    }
  }

  /** Extracting the listed files into a different directory leaves every file of the source directory as it was. */
  lemma ListedKeepsSources(s: Snapshot, disk: Disk, dir: Path, destination: Path, mode: string, naming: Naming, name: string)
    requires dir != destination
    ensures SameAt(ListedEffect(s, disk, dir, destination, mode, naming).disk, disk, Join(dir, name))
  {
    var jobs := DirJobs(s.fileList, dir, destination, mode, naming);
    JobsFoldFrame(Run(s, disk, false), jobs, |jobs|, DirLoop, Join(dir, name));
  }

  /** `extract_dir` into a different directory leaves every file of the source directory as it was. */
  lemma ExtractDirKeepsSources(s: Snapshot, disk: Disk, dir: Path, destination: Path, mode: string, naming: Naming,
                               refreshFirst: bool, listing: Option<seq<Entry>>, stopAt: nat, name: string)
    requires dir != destination
    ensures SameAt(ExtractDirEffect(s, disk, dir, destination, mode, naming, refreshFirst, listing, stopAt).disk,
                   disk, Join(dir, name))
  {
    if !s.taskRunning {
      var refreshed := RefreshedFirst(s.(taskRunning := true), mode, refreshFirst, listing, stopAt);
      if refreshed.1 != Blocked {
        ListedKeepsSources(refreshed.0, disk, dir, destination, mode, naming, name);
      }
    }
  }
}
