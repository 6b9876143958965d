/**
 * `extract_all`: the header table flattened into (header, category)
 * pairs, stage 1 (copy the sounds directory as music), stage 2 (sniff
 * the http directory into (file, category) pairs) and stage 3 (extract
 * each pair into its category's directory).
 */
module Stages {
  import opened Wrappers
  import opened Seqs
  import opened Registry
  import opened Paths
  import opened FileSystem
  import opened State
  import opened Extractor
  import opened Scanner
  import opened Batch

  type Pair = (string, string)

  /** Every header of `hs` tagged with its category `key`, in order. */
  function Tagged(hs: seq<string>, key: string): seq<Pair>
  {
    if hs == [] then [] else Tagged(hs[..|hs| - 1], key) + [(hs[|hs| - 1], key)]
  }

  /** The (header, category) pairs of `table`, visiting its categories in `order`. */
  function Flatten(table: map<string, seq<string>>, order: seq<string>): seq<Pair>
    requires forall k :: k in order ==> k in table
  {
    if order == [] then [] else Flatten(table, order[..|order| - 1]) + Tagged(table[order[|order| - 1]], order[|order| - 1])
  }

  /** The (header, category) pairs of the header table in the order the categories are visited. */
  function AllHeaders(order: seq<string>): seq<Pair>
    requires forall k :: k in order ==> k in HEADERS
  {
    Flatten(HEADERS, order)
  }

  /** The nested loops that flatten the header table. */
  method BuildAllHeaders(order: seq<string>) returns (all: seq<Pair>)
    requires forall k :: k in order ==> k in HEADERS
    ensures all == AllHeaders(order)
  {
    all := [];
    var i := 0;
    while i < |order|
      invariant i <= |order|
      invariant all == AllHeaders(order[..i])
    {
      var key := order[i];
      var modeHeaders := HEADERS[key];
      var j := 0;
      while j < |modeHeaders|
        invariant j <= |modeHeaders|
        invariant all == AllHeaders(order[..i]) + Tagged(modeHeaders[..j], key)
      {
        all := all + [(modeHeaders[j], key)];
        assert modeHeaders[..j + 1][..j] == modeHeaders[..j];
        j := j + 1;
      }
      assert modeHeaders[..j] == modeHeaders;
      assert order[..i + 1][..i] == order[..i];
      i := i + 1;
    }
    assert order[..i] == order;
  }

  lemma {:induction false} TaggedMembers(hs: seq<string>, key: string)
    ensures forall p :: p in Tagged(hs, key) <==> p.1 == key && p.0 in hs
  {
    if hs != [] {
      TaggedMembers(hs[..|hs| - 1], key);
      assert hs == hs[..|hs| - 1] + [hs[|hs| - 1]];
    }
  }

  lemma {:induction false} FlattenMembers(table: map<string, seq<string>>, order: seq<string>)
    requires forall k :: k in order ==> k in table
    ensures forall p :: p in Flatten(table, order) <==> p.1 in order && p.0 in table[p.1]
  {
    if order != [] {
      var init := order[..|order| - 1];
      var key := order[|order| - 1];
      assert order == init + [key];
      FlattenMembers(table, init);
      TaggedMembers(table[key], key);
    }
  }

  /** The flattened table holds a pair exactly when the header is one of its category's. */
  lemma AllHeadersMembers(order: seq<string>)
    requires IsKeyOrder(order)
    ensures forall p :: p in AllHeaders(order) <==> p.1 in HEADERS && p.0 in HEADERS[p.1]
  {
    FlattenMembers(HEADERS, order);
  }

  /** The headers of `all` tagged `cat`, in order. */
  function HeadsOf(all: seq<Pair>, cat: string): seq<string>
  {
    if all == [] then []
    else HeadsOf(all[..|all| - 1], cat) + (if all[|all| - 1].1 == cat then [all[|all| - 1].0] else [])
  }

  lemma {:induction false} HeadsOfAppend(a: seq<Pair>, b: seq<Pair>, cat: string)
    ensures HeadsOf(a + b, cat) == HeadsOf(a, cat) + HeadsOf(b, cat)
    decreases |b|
  {
    if b == [] {
      assert a + b == a;
    } else {
      var b' := b[..|b| - 1];
      assert (a + b)[..|a + b| - 1] == a + b';
      assert (a + b)[|a + b| - 1] == b[|b| - 1];
      HeadsOfAppend(a, b', cat);
    }
  }

  lemma {:induction false} HeadsOfTagged(hs: seq<string>, key: string, cat: string)
    ensures HeadsOf(Tagged(hs, key), cat) == if key == cat then hs else []
  {
    if hs != [] {
      var init := hs[..|hs| - 1];
      HeadsOfTagged(init, key, cat);
      HeadsOfAppend(Tagged(init, key), [(hs[|hs| - 1], key)], cat);
      assert [(hs[|hs| - 1], key)][..0] == [];
      assert hs == init + [hs[|hs| - 1]];
    }
  }

  lemma {:induction false} HeadsOfFlatten(table: map<string, seq<string>>, order: seq<string>, cat: string)
    requires forall k :: k in order ==> k in table
    requires forall i, j :: 0 <= i < j < |order| ==> order[i] != order[j]
    ensures HeadsOf(Flatten(table, order), cat) == if cat in order then table[cat] else []
  {
    if order != [] {
      var init := order[..|order| - 1];
      var key := order[|order| - 1];
      assert order == init + [key];
      forall i, j | 0 <= i < j < |init| ensures init[i] != init[j] {
        assert init[i] == order[i] && init[j] == order[j];
      }
      forall i | 0 <= i < |init| ensures init[i] != key {
        assert init[i] == order[i];
      }
      HeadsOfFlatten(table, init, cat);
      HeadsOfFlattenStep(table, init, key, cat);
    }
  }

  /** One more category, not visited before, adds its own headers and nothing else. */
  lemma HeadsOfFlattenStep(table: map<string, seq<string>>, init: seq<string>, key: string, cat: string)
    requires forall k :: k in init ==> k in table
    requires key in table && key !in init
    requires HeadsOf(Flatten(table, init), cat) == if cat in init then table[cat] else []
    ensures HeadsOf(Flatten(table, init) + Tagged(table[key], key), cat)
            == if cat in init || cat == key then table[cat] else []
  {
    HeadsOfAppend(Flatten(table, init), Tagged(table[key], key), cat);
    HeadsOfTagged(table[key], key, cat);
    if key == cat {
      EmptyAppend(table[key]);
    } else {
      AppendEmpty(HeadsOf(Flatten(table, init), cat));
    }
  }

  /** Picking one category out of the flattened table gives back its headers in table order. */
  lemma HeadsOfAllHeaders(order: seq<string>, cat: string)
    requires forall k :: k in order ==> k in HEADERS
    requires forall i, j :: 0 <= i < j < |order| ==> order[i] != order[j]
    ensures HeadsOf(AllHeaders(order), cat) == if cat in order then HEADERS[cat] else []
  {
    HeadsOfFlatten(HEADERS, order, cat);
  }

  /** The job stage 1 runs for a file `name` of the sounds directory `music`. */
  function MusicJob(music: Path, destination: Path, naming: Naming, name: string): Job
  {
    Job(Join(music, name), "Music", Join(destination, AssetName(naming, name)), true)
  }

  /** A music job copies its file verbatim and never panics. */
  lemma MusicJobNeverPanics(disk: Disk, music: Path, destination: Path, naming: Naming, name: string)
    ensures ExtractEffect(disk, MusicJob(music, destination, naming, name)).outcome.Returned?
  {
    MusicIsNotACategory();
    PayloadOfNonCategory("Music", if disk.Read(Join(music, name)).Some? then disk.files[Join(music, name)] else []);
  }

  /**
   * Stage 1 after the entries `es` out of `t`: the progress and the stage
   * status are set before each entry; an entry `read_dir` reported as an
   * error panics (it is unwrapped); an entry without a file name is skipped.
   */
  function Stage1Fold(r: Run, es: seq<Entry>, t: nat, music: Path, destination: Path, naming: Naming): Run
  {
    if es == [] then r
    else
      var p := Stage1Fold(r, es[..|es| - 1], t, music, destination, naming);
      if p.panicked then p else Stage1Step(p, es[|es| - 1], |es|, t, music, destination, naming)
  }

  /** Entry `k` of `t` in stage 1. */
  function Stage1Step(p: Run, e: Entry, k: nat, t: nat, music: Path, destination: Path, naming: Naming): Run
  {
    var s1 := p.state.WithProgress(Ratio(k, 3 * t)).WithStatus(Stage(1, "extracting-files"));
    if e.Unreadable? then Run(s1, p.disk, true)
    else if e.name.None? then Run(s1, p.disk, false)
    else MusicStep(s1, ExtractEffect(p.disk, MusicJob(music, destination, naming, e.name.value)))
  }

  /** A music file whose extraction gives `x`, after the progress and status of `s1`. */
  function MusicStep(s1: Snapshot, x: ExtractResult): Run
  {
    Run(Reported(s1, x), x.disk, x.outcome.Panic?)
  }

  /** One entry touches only status, progress and repaint, and sets the progress to k/(3t). */
  lemma Stage1StepShape(p: Run, e: Entry, k: nat, t: nat, music: Path, destination: Path, naming: Naming)
    ensures var q := Stage1Step(p, e, k, t, music, destination, naming).state;
            && q == p.state.(status := q.status, progress := q.progress, requestRepaint := q.requestRepaint)
            && q.progress == Ratio(k, 3 * t)
  {
  }

  /** One entry panics exactly when it is a listing error. */
  lemma Stage1StepPanics(p: Run, e: Entry, k: nat, t: nat, music: Path, destination: Path, naming: Naming)
    ensures Stage1Step(p, e, k, t, music, destination, naming).panicked <==> e.Unreadable?
  {
    if !e.Unreadable? && e.name.Some? {
      MusicJobNeverPanics(p.disk, music, destination, naming, e.name.value);
    }
  }

  lemma {:induction false} Stage1PanicIsFinal(r: Run, es: seq<Entry>, i: nat, t: nat, music: Path, destination: Path, naming: Naming)
    requires i <= |es| && Stage1Fold(r, es[..i], t, music, destination, naming).panicked
    ensures Stage1Fold(r, es, t, music, destination, naming) == Stage1Fold(r, es[..i], t, music, destination, naming)
    decreases |es| - i
  {
    if i < |es| {
      assert es[..i + 1][..i] == es[..i];
      Stage1PanicIsFinal(r, es, i + 1, t, music, destination, naming);
    } else {
      assert es[..i] == es;
    }
  }

  /** Stage 1 touches only status, progress and repaint. */
  lemma {:induction false} Stage1Shape(r: Run, es: seq<Entry>, t: nat, music: Path, destination: Path, naming: Naming)
    ensures var q := Stage1Fold(r, es, t, music, destination, naming).state;
            q == r.state.(status := q.status, progress := q.progress, requestRepaint := q.requestRepaint)
  {
    if es != [] {
      var init := es[..|es| - 1];
      Stage1Shape(r, init, t, music, destination, naming);
      Stage1StepShape(Stage1Fold(r, init, t, music, destination, naming), es[|es| - 1], |es|, t, music, destination, naming);
    }
  }

  /**
   * Stage 1 panics exactly when one of the entries is a listing error, and
   * otherwise ends at a third of the bar.
   */
  lemma {:induction false} Stage1Panics(r: Run, es: seq<Entry>, t: nat, music: Path, destination: Path, naming: Naming)
    requires !r.panicked
    ensures var q := Stage1Fold(r, es, t, music, destination, naming);
            && (q.panicked <==> exists k :: 0 <= k < |es| && es[k].Unreadable?)
            && (es != [] && !q.panicked ==> q.state.progress == Ratio(|es|, 3 * t))
  {
    if es != [] {
      var init := es[..|es| - 1];
      Stage1Panics(r, init, t, music, destination, naming);
      var p := Stage1Fold(r, init, t, music, destination, naming);
      var e := es[|es| - 1];
      if p.panicked {
        var k :| 0 <= k < |init| && init[k].Unreadable?;
        assert es[k] == init[k];
      } else {
        assert forall k :: 0 <= k < |init| ==> init[k] == es[k];
        Stage1StepPanics(p, e, |es|, t, music, destination, naming);
        Stage1StepShape(p, e, |es|, t, music, destination, naming);
      }
    }
  }

  /** One entry of stage 1: an entry `read_dir` reported as an error panics, one without a name is skipped. */
  method Stage1Entry(st: AppState, disk: Disk, entry: Entry, count: nat, total: nat, music: Path, destination: Path, naming: Naming)
    returns (panicked: bool, after: Disk)
    modifies st`status, st`progress, st`requestRepaint
    ensures Run(st.Snap(), after, panicked) == Stage1Step(Run(old(st.Snap()), disk, false), entry, count, total, music, destination, naming)
  {
    st.UpdateProgress(Ratio(count, 3 * total));
    st.UpdateStatus(Stage(1, "extracting-files"));
    after := disk;
    if entry.Unreadable? {
      // `entry.unwrap()` panics
      return true, after;
    }
    panicked := false;
    if entry.name.Some? {
      var outcome;
      outcome, after := ExtractFile(st, disk, MusicJob(music, destination, naming, entry.name.value));
      panicked := outcome.Panic?;
    }
  }

  /** Stage 1 of `extract_all`. */
  method RunStage1(st: AppState, disk: Disk, entries: seq<Entry>, music: Path, destination: Path, naming: Naming)
    returns (panicked: bool, after: Disk)
    modifies st`status, st`progress, st`requestRepaint
    ensures Run(st.Snap(), after, panicked) == Stage1Fold(Run(old(st.Snap()), disk, false), entries, |entries|, music, destination, naming)
  {
    ghost var start := Run(st.Snap(), disk, false);
    var total := |entries|;
    var count := 0;
    after := disk;
    while count < total
      invariant count <= total
      invariant Stage1Fold(start, entries[..count], total, music, destination, naming) == Run(st.Snap(), after, false)
    {
      var entry := entries[count];
      count := count + 1;
      assert entries[..count][..count - 1] == entries[..count - 1];
      panicked, after := Stage1Entry(st, after, entry, count, total, music, destination, naming);
      if panicked {
        Stage1PanicIsFinal(start, entries, count, total, music, destination, naming);
        return true, after;
      }
    }
    assert entries[..count] == entries;
    return false, after;
  }

  /** The (file, category) pairs stage 2 collects for one file, in table order. */
  function PairsFor(name: string, prefix: seq<byte>, all: seq<Pair>): seq<Pair>
  {
    if all == [] then []
    else
      var h := all[|all| - 1];
      PairsFor(name, prefix, all[..|all| - 1]) + (if Announces(prefix, h.0) then [(name, h.1)] else [])
  }

  function EntryPairs(e: Entry, all: seq<Pair>): seq<Pair>
  {
    if Readable(e) then PairsFor(e.name.value, Prefix(e.data.value), all) else []
  }

  /** The pairs stage 2 collects for the entries `es`, in order. */
  function Stage2Pairs(es: seq<Entry>, all: seq<Pair>): seq<Pair>
  {
    if es == [] then [] else Stage2Pairs(es[..|es| - 1], all) + EntryPairs(es[|es| - 1], all)
  }

  /** Stage 2's state after the entries `es` out of `t`: the bar fills from one third to two. */
  function Stage2Fold(s: Snapshot, es: seq<Entry>, t: nat): Snapshot
  {
    if es == [] then s
    else
      Stage2Fold(s, es[..|es| - 1], t).WithProgress(Ratio(|es| + t, 3 * t))
        .WithStatus(Stage(2, if Readable(es[|es| - 1]) then "filtering-files" else "failed-opening-file"))
  }

  lemma {:induction false} Stage2Shape(s: Snapshot, es: seq<Entry>, t: nat)
    ensures var q := Stage2Fold(s, es, t);
            && q == s.(status := q.status, progress := q.progress, requestRepaint := q.requestRepaint)
            && (es != [] ==> q.progress == Ratio(|es| + t, 3 * t))
  {
    if es != [] {
      Stage2Shape(s, es[..|es| - 1], t);
    }
  }

  /** The inner loop of stage 2, over the flattened header table. */
  method CollectPairs(name: string, prefix: seq<byte>, all: seq<Pair>) returns (pairs: seq<Pair>)
    ensures pairs == PairsFor(name, prefix, all)
  {
    pairs := [];
    var j := 0;
    while j < |all|
      invariant j <= |all|
      invariant pairs == PairsFor(name, prefix, all[..j])
    {
      var header := all[j];
      if header.0 != "" {
        if Matcher.BytesContains(prefix, AsciiBytes(header.0)) {
          pairs := pairs + [(name, header.1)];
        }
      }
      assert all[..j + 1][..j] == all[..j];
      j := j + 1;
    }
    assert all[..j] == all;
  }

  /** Stage 2 of `extract_all`. */
  method RunStage2(st: AppState, entries: seq<Entry>, all: seq<Pair>) returns (pairs: seq<Pair>)
    modifies st`status, st`progress, st`requestRepaint
    ensures st.Snap() == Stage2Fold(old(st.Snap()), entries, |entries|)
    ensures pairs == Stage2Pairs(entries, all)
  {
    ghost var start := st.Snap();
    var total := |entries|;
    var count := 0;
    pairs := [];
    while count < total
      invariant count <= total
      invariant st.Snap() == Stage2Fold(start, entries[..count], total)
      invariant pairs == Stage2Pairs(entries[..count], all)
    {
      var entry := entries[count];
      count := count + 1;
      assert entries[..count][..count - 1] == entries[..count - 1];
      st.UpdateProgress(Ratio(count + total, 3 * total));
      if Readable(entry) {
        var found := CollectPairs(entry.name.value, Prefix(entry.data.value), all);
        pairs := pairs + found;
        st.UpdateStatus(Stage(2, "filtering-files"));
      } else {
        st.UpdateStatus(Stage(2, "failed-opening-file"));
      }
    }
    assert entries[..count] == entries;
  }

  /** The jobs of stage 3: each pair's file from the http directory into destination/category/name. */
  function Stage3Jobs(pairs: seq<Pair>, http: Path, destination: Path, naming: Naming): (jobs: seq<Job>)
    ensures |jobs| == |pairs|
  {
    seq(|pairs|, i requires 0 <= i < |pairs| =>
      Job(Join(http, pairs[i].0), pairs[i].1, Join(Join(destination, pairs[i].1), AssetName(naming, pairs[i].0)), true))
  }

  /**
   * Stages 2 and 3 of `extract_all` from the state `s`, over the http
   * listing `h` and the flattened header table `all`: the pairs of stage 2
   * become the jobs of stage 3, and the gate is released unless a job
   * panicked.
   */
  function HttpStagesEffect(s: Snapshot, disk: Disk, cache: Path, destination: Path, naming: Naming, all: seq<Pair>,
                            h: seq<Entry>): BatchResult
  {
    var s2 := Stage2Fold(s, h, |h|);
    var pairs := Stage2Pairs(h, all);
    var jobs := Stage3Jobs(pairs, Join(cache, "http"), destination, naming);
    var r3 := JobsFold(Run(s2, disk, false), jobs, |jobs|, StageThree);
    if r3.panicked then BatchResult(r3.state, r3.disk, Panicked)
    else BatchResult(r3.state.(taskRunning := false).WithStatus(Msg("all-extracted")), r3.disk, Completed)
  }

  /**
   * `extract_all` into `destination` from the cache directory `cache`,
   * visiting the categories in `order`: a held task gate makes it a
   * no-op; a directory that cannot be listed panics (it is unwrapped),
   * as does a panic in any stage, and the gate then stays held.
   */
  function ExtractAllEffect(s: Snapshot, disk: Disk, cache: Path, destination: Path, naming: Naming, order: seq<string>,
                            musicListing: Option<seq<Entry>>, httpListing: Option<seq<Entry>>): BatchResult
    requires IsKeyOrder(order)
  {
    if s.taskRunning then BatchResult(s, disk, NotStarted)
    else AllThreadEffect(s.(taskRunning := true), disk, cache, destination, naming, order, musicListing, httpListing)
  }

  /** `extract_all`'s thread, which holds the gate: stage 1 over the sounds directory, then stages 2 and 3. */
  function AllThreadEffect(s: Snapshot, disk: Disk, cache: Path, destination: Path, naming: Naming, order: seq<string>,
                           musicListing: Option<seq<Entry>>, httpListing: Option<seq<Entry>>): BatchResult
    requires IsKeyOrder(order)
  {
    if musicListing.None? then BatchResult(s, disk, Panicked)
    else
      var m := musicListing.value;
      var r1 := Stage1Fold(Run(s, disk, false), m, |m|, Join(cache, "sounds"), destination, naming);
      if r1.panicked then BatchResult(r1.state, r1.disk, Panicked)
      else if httpListing.None? then BatchResult(r1.state, r1.disk, Panicked)
      else HttpStagesEffect(r1.state, r1.disk, cache, destination, naming, AllHeaders(order), httpListing.value)
  }

  /** Stages 2 and 3 of `extract_all` and the release of the gate. */
  method RunHttpStages(st: AppState, disk: Disk, cache: Path, destination: Path, naming: Naming, all: seq<Pair>,
                       h: seq<Entry>)
    returns (outcome: TaskOutcome, after: Disk)
    modifies st`status, st`progress, st`requestRepaint, st`taskRunning
    ensures BatchResult(st.Snap(), after, outcome) == HttpStagesEffect(old(st.Snap()), disk, cache, destination, naming, all, h)
  {
    var httpDirectory := Join(cache, "http");
    var pairs := RunStage2(st, h, all);
    var jobs := Stage3Jobs(pairs, httpDirectory, destination, naming);
    var panicked;
    panicked, after := RunJobs(st, disk, jobs, StageThree);
    if panicked {
      return Panicked, after;
    }
    st.SetTaskRunning(false);
    st.UpdateStatus(Msg("all-extracted"));
    return Completed, after;
  }

  /** `extract_all`'s thread once it holds the gate. */
  method AllThread(st: AppState, disk: Disk, cache: Path, destination: Path, naming: Naming, order: seq<string>,
                   musicListing: Option<seq<Entry>>, httpListing: Option<seq<Entry>>)
    returns (outcome: TaskOutcome, after: Disk)
    requires IsKeyOrder(order)
    modifies st
    ensures BatchResult(st.Snap(), after, outcome)
         == AllThreadEffect(old(st.Snap()), disk, cache, destination, naming, order, musicListing, httpListing)
  {
    var all := BuildAllHeaders(order);
    var musicDirectory := Join(cache, "sounds");
    if musicListing.None? {
      return Panicked, disk;
    }
    var panicked;
    panicked, after := RunStage1(st, disk, musicListing.value, musicDirectory, destination, naming);
    if panicked {
      return Panicked, after;
    }
    if httpListing.None? {
      return Panicked, after;
    }
    outcome, after := RunHttpStages(st, after, cache, destination, naming, all, httpListing.value);
  }

  /** `extract_all`, run to the end (as when its thread is joined). */
  method ExtractAll(st: AppState, disk: Disk, cache: Path, destination: Path, naming: Naming, order: seq<string>,
                    musicListing: Option<seq<Entry>>, httpListing: Option<seq<Entry>>)
    returns (outcome: TaskOutcome, after: Disk)
    requires IsKeyOrder(order)
    modifies st
    ensures BatchResult(st.Snap(), after, outcome)
         == ExtractAllEffect(old(st.Snap()), disk, cache, destination, naming, order, musicListing, httpListing)
  {
    if st.taskRunning {
      return NotStarted, disk;
    }
    st.SetTaskRunning(true);
    outcome, after := AllThread(st, disk, cache, destination, naming, order, musicListing, httpListing);
  }

  /** A held task gate turns `extract_all` into a no-op. */
  lemma ExtractAllBusy(s: Snapshot, disk: Disk, cache: Path, destination: Path, naming: Naming, order: seq<string>,
                       musicListing: Option<seq<Entry>>, httpListing: Option<seq<Entry>>)
    requires IsKeyOrder(order) && s.taskRunning
    ensures ExtractAllEffect(s, disk, cache, destination, naming, order, musicListing, httpListing) == BatchResult(s, disk, NotStarted)
  {
  }

  /**
   * `extract_all` keeps the file lists; it panics, leaving the `TASK_RUNNING` gate
   * held, when either directory cannot be listed or the sounds listing
   * holds an error; otherwise it ends with the gate released, the status
   * "all-extracted", and the bar full when stage 3 had work, but stuck at
   * two thirds when the http directory held files and none matched.
   */
  lemma ExtractAllEnds(s: Snapshot, disk: Disk, cache: Path, destination: Path, naming: Naming, order: seq<string>,
                       m: seq<Entry>, httpListing: Option<seq<Entry>>)
    requires IsKeyOrder(order) && !s.taskRunning
    ensures var r := ExtractAllEffect(s, disk, cache, destination, naming, order, Some(m), httpListing);
            && r.state.fileList == s.fileList && r.state.filteredList == s.filteredList
            && r.state.listTaskRunning == s.listTaskRunning
            && (r.outcome == Panicked || r.outcome == Completed)
            && (httpListing.None? || (exists k :: 0 <= k < |m| && m[k].Unreadable?) ==> r.outcome == Panicked)
            && (r.outcome == Panicked ==> r.state.taskRunning)
            && (r.outcome == Completed ==> !r.state.taskRunning && r.state.status == Msg("all-extracted"))
            && (r.outcome == Completed && Stage2Pairs(httpListing.value, AllHeaders(order)) != [] ==>
                  r.state.progress.done == r.state.progress.total)
            && (r.outcome == Completed && Stage2Pairs(httpListing.value, AllHeaders(order)) == [] && httpListing.value != [] ==>
                  r.state.progress == Ratio(2 * |httpListing.value|, 3 * |httpListing.value|))
  {
    var s1 := s.(taskRunning := true);
    var r1 := Stage1Fold(Run(s1, disk, false), m, |m|, Join(cache, "sounds"), destination, naming);
    Stage1Shape(Run(s1, disk, false), m, |m|, Join(cache, "sounds"), destination, naming);
    Stage1Panics(Run(s1, disk, false), m, |m|, Join(cache, "sounds"), destination, naming);
    if !r1.panicked && httpListing.Some? {
      HttpStagesEnds(r1.state, r1.disk, cache, destination, naming, AllHeaders(order), httpListing.value);
      HttpStagesProgress(r1.state, r1.disk, cache, destination, naming, AllHeaders(order), httpListing.value);
    }
  }

  /**
   * Stages 2 and 3 keep both lists and the scan flag; they end with the
   * gate released and the status "all-extracted", or, after a panic, with
   * the gate as it was.
   */
  lemma HttpStagesEnds(s: Snapshot, disk: Disk, cache: Path, destination: Path, naming: Naming, all: seq<Pair>, h: seq<Entry>)
    ensures var r := HttpStagesEffect(s, disk, cache, destination, naming, all, h);
            && r.state.fileList == s.fileList && r.state.filteredList == s.filteredList
            && r.state.listTaskRunning == s.listTaskRunning
            && (r.outcome == Panicked || r.outcome == Completed)
            && (r.outcome == Panicked ==> r.state.taskRunning == s.taskRunning)
            && (r.outcome == Completed ==> !r.state.taskRunning && r.state.status == Msg("all-extracted"))
  {
    var s2 := Stage2Fold(s, h, |h|);
    Stage2Shape(s, h, |h|);
    var jobs := Stage3Jobs(Stage2Pairs(h, all), Join(cache, "http"), destination, naming);
    JobsFoldShape(Run(s2, disk, false), jobs, |jobs|, StageThree);
  }

  /**
   * A completed run of stages 2 and 3 leaves the bar full when stage 3 had
   * work, and at two thirds when the http directory held files and none
   * matched.
   */
  lemma HttpStagesProgress(s: Snapshot, disk: Disk, cache: Path, destination: Path, naming: Naming, all: seq<Pair>, h: seq<Entry>)
    ensures var r := HttpStagesEffect(s, disk, cache, destination, naming, all, h);
            && (r.outcome == Completed && Stage2Pairs(h, all) != [] ==> r.state.progress.done == r.state.progress.total)
            && (r.outcome == Completed && Stage2Pairs(h, all) == [] && h != [] ==> r.state.progress == Ratio(2 * |h|, 3 * |h|))
  {
    var s2 := Stage2Fold(s, h, |h|);
    Stage2Shape(s, h, |h|);
    var jobs := Stage3Jobs(Stage2Pairs(h, all), Join(cache, "http"), destination, naming);
    if jobs != [] {
      JobsFoldProgress(Run(s2, disk, false), jobs, |jobs|, StageThree);
    }
  }

  /** Names of the assets, in order. */
  function NamesOf(xs: seq<AssetInfo>): seq<string>
  {
    if xs == [] then [] else NamesOf(xs[..|xs| - 1]) + [xs[|xs| - 1].name]
  }

  /** The file names of the pairs tagged `cat`, in order. */
  function NamesIn(ps: seq<Pair>, cat: string): seq<string>
  {
    if ps == [] then []
    else NamesIn(ps[..|ps| - 1], cat) + (if ps[|ps| - 1].1 == cat then [ps[|ps| - 1].0] else [])
  }

  /** `name` once per set flag. */
  function NameCopies(name: string, flags: seq<bool>): seq<string>
  {
    if flags == [] then [] else NameCopies(name, flags[..|flags| - 1]) + (if flags[|flags| - 1] then [name] else [])
  }

  lemma {:induction false} NamesOfAppend(a: seq<AssetInfo>, b: seq<AssetInfo>)
    ensures NamesOf(a + b) == NamesOf(a) + NamesOf(b)
    decreases |b|
  {
    if b == [] {
      assert a + b == a;
    } else {
      var b' := b[..|b| - 1];
      assert (a + b)[..|a + b| - 1] == a + b';
      assert (a + b)[|a + b| - 1] == b[|b| - 1];
      NamesOfAppend(a, b');
    }
  }

  lemma {:induction false} NamesInAppend(a: seq<Pair>, b: seq<Pair>, cat: string)
    ensures NamesIn(a + b, cat) == NamesIn(a, cat) + NamesIn(b, cat)
    decreases |b|
  {
    if b == [] {
      assert a + b == a;
    } else {
      var b' := b[..|b| - 1];
      assert (a + b)[..|a + b| - 1] == a + b';
      assert (a + b)[|a + b| - 1] == b[|b| - 1];
      NamesInAppend(a, b', cat);
    }
  }

  lemma {:induction false} NamesOfCopies(info: AssetInfo, flags: seq<bool>)
    ensures NamesOf(Copies(info, flags)) == NameCopies(info.name, flags)
  {
    if flags != [] {
      var init := flags[..|flags| - 1];
      NamesOfCopies(info, init);
      NamesOfAppend(Copies(info, init), if flags[|flags| - 1] then [info] else []);
      assert [info][..0] == [];
    }
  }

  lemma AnnounceFlagsSnoc(prefix: seq<byte>, hs: seq<string>, h: string)
    ensures AnnounceFlags(prefix, hs + [h]) == AnnounceFlags(prefix, hs) + [Announces(prefix, h)]
  {
    var l := AnnounceFlags(prefix, hs + [h]);
    var r := AnnounceFlags(prefix, hs) + [Announces(prefix, h)];
    assert |l| == |r|;
    forall k | 0 <= k < |l|
      ensures l[k] == r[k]
    {
      if k < |hs| {
        assert (hs + [h])[k] == hs[k];
      }
    }
  }

  lemma NameCopiesSnoc(name: string, flags: seq<bool>, b: bool)
    ensures NameCopies(name, flags + [b]) == NameCopies(name, flags) + (if b then [name] else [])
  {
    assert (flags + [b])[..|flags|] == flags;
  }

  lemma NamesInFound(name: string, cat: string, key: string, b: bool)
    ensures NamesIn(if b then [(name, key)] else [], cat) == if b && key == cat then [name] else []
  {
    assert [(name, key)][..0] == [];
  }

  /** The names stage 2 pairs with `cat` for one file are its refresh pushes under `cat`'s headers. */
  lemma {:induction false} NamesInPairsFor(name: string, prefix: seq<byte>, all: seq<Pair>, cat: string)
    ensures NamesIn(PairsFor(name, prefix, all), cat) == NameCopies(name, AnnounceFlags(prefix, HeadsOf(all, cat)))
  {
    if all == [] {
      assert AnnounceFlags(prefix, []) == [];
    } else {
      var init := all[..|all| - 1];
      var h := all[|all| - 1];
      var b := Announces(prefix, h.0);
      NamesInPairsFor(name, prefix, init, cat);
      var found := if b then [(name, h.1)] else [];
      assert PairsFor(name, prefix, all) == PairsFor(name, prefix, init) + found;
      NamesInAppend(PairsFor(name, prefix, init), found, cat);
      NamesInFound(name, cat, h.1, b);
      if h.1 == cat {
        assert HeadsOf(all, cat) == HeadsOf(init, cat) + [h.0];
        AnnounceFlagsSnoc(prefix, HeadsOf(init, cat), h.0);
        NameCopiesSnoc(name, AnnounceFlags(prefix, HeadsOf(init, cat)), b);
      } else {
        assert HeadsOf(all, cat) == HeadsOf(init, cat);
      }
    }
  }

  /** For one entry, stage 2's names under `cat` are the names refresh lists for `cat`. */
  lemma EntryPairsAgree(e: Entry, order: seq<string>, cat: string)
    requires IsKeyOrder(order) && cat in HEADERS
    ensures NamesIn(EntryPairs(e, AllHeaders(order)), cat) == NamesOf(EntryPushes(e, HEADERS[cat]))
  {
    if Readable(e) {
      var prefix := Prefix(e.data.value);
      HeadsOfAllHeaders(order, cat);
      NamesInPairsFor(e.name.value, prefix, AllHeaders(order), cat);
      NamesOfCopies(InfoOf(e), AnnounceFlags(prefix, HEADERS[cat]));
    }
  }

  /**
   * Stage 2 sorts the http directory the way refresh does: the files it
   * pairs with a category, in order and with repetitions, are exactly the
   * names a refresh of that category lists.
   */
  lemma {:induction false} Stage2AgreesWithRefresh(es: seq<Entry>, order: seq<string>, cat: string)
    requires IsKeyOrder(order) && cat in HEADERS
    ensures NamesIn(Stage2Pairs(es, AllHeaders(order)), cat) == NamesOf(ScanPushes(es, HEADERS[cat]))
  {
    if es != [] {
      var init := es[..|es| - 1];
      var e := es[|es| - 1];
      Stage2AgreesWithRefresh(init, order, cat);
      NamesInAppend(Stage2Pairs(init, AllHeaders(order)), EntryPairs(e, AllHeaders(order)), cat);
      NamesOfAppend(ScanPushes(init, HEADERS[cat]), EntryPushes(e, HEADERS[cat]));
      EntryPairsAgree(e, order, cat);
    }
  }

  /** Every pair stage 2 collects names a readable file and one of the categories. */
  lemma {:induction false} Stage2PairsSound(es: seq<Entry>, order: seq<string>)
    requires IsKeyOrder(order)
    ensures forall p :: p in Stage2Pairs(es, AllHeaders(order)) ==>
      p.1 in HEADERS && exists k :: 0 <= k < |es| && Readable(es[k]) && es[k].name.value == p.0
  {
    if es != [] {
      var init := es[..|es| - 1];
      Stage2PairsSound(init, order);
      AllHeadersMembers(order);
      PairsForSound(es[|es| - 1], AllHeaders(order));
      forall p | p in Stage2Pairs(es, AllHeaders(order))
        ensures p.1 in HEADERS && exists k :: 0 <= k < |es| && Readable(es[k]) && es[k].name.value == p.0
      {
        if p in Stage2Pairs(init, AllHeaders(order)) {
          var k :| 0 <= k < |init| && Readable(init[k]) && init[k].name.value == p.0;
          assert es[k] == init[k];
        }
      }
    }
  }

  lemma {:induction false} PairsForSound(e: Entry, all: seq<Pair>)
    ensures forall p :: p in EntryPairs(e, all) ==> Readable(e) && p.0 == e.name.value && exists q :: q in all && q.1 == p.1
  {
    if Readable(e) {
      PairsForNames(e.name.value, Prefix(e.data.value), all);
    }
  }

  lemma {:induction false} PairsForNames(name: string, prefix: seq<byte>, all: seq<Pair>)
    ensures forall p :: p in PairsFor(name, prefix, all) ==> p.0 == name && exists q :: q in all && q.1 == p.1
  {
    if all != [] {
      var init := all[..|all| - 1];
      PairsForNames(name, prefix, init);
      assert forall q :: q in init ==> q in all;
      assert all[|all| - 1] in all;
    }
  }

  /**
   * While the `TASK_RUNNING` gate is held (as a panicked extraction or a delete of an
   * unreadable directory leaves it), every later extraction and delete is
   * a no-op.
   */
  lemma HeldGateBlocksTasks(s: Snapshot, disk: Disk, cache: Path, dir: Path, destination: Path, mode: string, naming: Naming,
                            order: seq<string>, musicListing: Option<seq<Entry>>, httpListing: Option<seq<Entry>>,
                            refreshFirst: bool, listing: Option<seq<Entry>>, stopAt: nat, removals: Option<seq<Removal>>)
    requires IsKeyOrder(order) && s.taskRunning
    ensures ExtractAllEffect(s, disk, cache, destination, naming, order, musicListing, httpListing) == BatchResult(s, disk, NotStarted)
    ensures ExtractDirEffect(s, disk, dir, destination, mode, naming, refreshFirst, listing, stopAt) == BatchResult(s, disk, NotStarted)
    ensures !Refused(dir) ==> DeleteEffect(s, dir, removals) == (s, NotStarted)
  {
  }

  /** A sounds listing with an error panics stage 1, and the gate then stays held. */
  lemma Stage1PanicHoldsGate(s: Snapshot, disk: Disk, cache: Path, destination: Path, naming: Naming, order: seq<string>,
                             m: seq<Entry>, httpListing: Option<seq<Entry>>, k: nat)
    requires IsKeyOrder(order) && !s.taskRunning && k < |m| && m[k].Unreadable?
    ensures var r := ExtractAllEffect(s, disk, cache, destination, naming, order, Some(m), httpListing);
            r.outcome == Panicked && r.state.taskRunning
  {
    ExtractAllEnds(s, disk, cache, destination, naming, order, m, httpListing);
  }

  /** A delete whose directory cannot be listed returns with the gate held. */
  lemma DeleteUnreadableHoldsGate(s: Snapshot, dir: Path)
    requires !Refused(dir) && !s.taskRunning
    ensures DeleteEffect(s, dir, None).1 == DirUnreadable && DeleteEffect(s, dir, None).0.taskRunning
  {
  }
}
