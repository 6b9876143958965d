/**
 * The command-line layer: the category names, the tab each maps to, and
 * the decision table that picks one action from the parsed arguments.
 */
module Cli {
  import opened Wrappers
  import opened Seqs
  import opened Registry
  import opened Paths
  import opened State
  import opened Scanner

  /** The `--mode` values. */
  datatype Category = Music | Sounds | Images | Ktx | Rbxm

  /** The variant name `Display` prints (it formats with Debug). */
  function DebugName(c: Category): string
  {
    match c
    case Music => "Music"
    case Sounds => "Sounds"
    case Images => "Images"
    case Ktx => "Ktx"
    case Rbxm => "Rbxm"
  }

  /** `get_tab`: lower-case the variant name, then widen "ktx" and "rbxm" to their tab names. */
  function GetTab(c: Category): string
  {
    ReplaceAll(ReplaceAll(Lower(DebugName(c)), "ktx", "ktx-files"), "rbxm", "rbxm-files")
  }

  /** The tab of each category, as a table. */
  function TabOf(c: Category): string
  {
    match c
    case Music => "music"
    case Sounds => "sounds"
    case Images => "images"
    case Ktx => "ktx-files"
    case Rbxm => "rbxm-files"
  }

  /** The string transforms of `get_tab` compute the table. */
  lemma GetTabIsTable(c: Category)
    ensures GetTab(c) == TabOf(c)
  {
    match c
    case Music => TabWithoutPatterns("Music", "music");
    case Sounds => TabWithoutPatterns("Sounds", "sounds");
    case Images => TabWithoutPatterns("Images", "images");
    case Ktx => KtxTab();
    case Rbxm => RbxmTab();
  }

  lemma KtxTab()
    ensures GetTab(Ktx) == "ktx-files"
  {
    LowerIs("Ktx", "ktx");
    ReplaceWhole("ktx", "ktx-files");
    AbsentWithoutFirst("ktx-files", "rbxm");
    ReplaceAbsent("ktx-files", "rbxm", "rbxm-files");
  }

  lemma RbxmTab()
    ensures GetTab(Rbxm) == "rbxm-files"
  {
    LowerIs("Rbxm", "rbxm");
    AbsentWithoutFirst("rbxm", "ktx");
    ReplaceAbsent("rbxm", "ktx", "ktx-files");
    ReplaceWhole("rbxm", "rbxm-files");
  }

  /** A name whose lower-casing holds neither "k" nor "r" keeps its lower-cased form. */
  lemma TabWithoutPatterns(name: string, lower: string)
    requires |name| == |lower| && forall i :: 0 <= i < |name| ==> LowerChar(name[i]) == lower[i]
    requires forall i :: 0 <= i < |lower| ==> lower[i] != 'k' && lower[i] != 'r'
    ensures ReplaceAll(ReplaceAll(Lower(name), "ktx", "ktx-files"), "rbxm", "rbxm-files") == lower
  {
    LowerIs(name, lower);
    AbsentWithoutFirst(lower, "ktx");
    ReplaceAbsent(lower, "ktx", "ktx-files");
    AbsentWithoutFirst(lower, "rbxm");
    ReplaceAbsent(lower, "rbxm", "rbxm-files");
  }

  /** Every tab except the music tab names a category of the header table. */
  lemma TabsAreCategories(c: Category)
    ensures GetTab(c) in HEADERS <==> c != Music
  {
    GetTabIsTable(c);
    MusicIsNotACategory();
  }

  /** The parsed command line. */
  datatype Args = Args(
    list: bool,
    mode: Option<Category>,
    extract: Option<string>,
    extractAll: bool,
    extension: bool,
    dest: Option<string>,
    swap: Option<string>,
    cacheDir: bool,
    checkForUpdates: bool,
    downloadNewUpdate: bool)

  /** What `main` does with the arguments. */
  datatype Action =
    | ListTabs(scans: seq<(Path, string)>)
    | ExtractAsset(source: Path, tab: string, dest: Path, addExtension: bool)
    | RefreshAndExtractDir(dir: Path, tab: string, dest: Path)
    | ExtractEverything(dest: Path)
    | SwapAssets(dir: Path, a: string, b: string)
    | PrintCacheDir(cache: Path)
    | CheckForUpdates
    | DownloadUpdate
    | RunGui
    | Complain(message: string)

  /** `list`: one scan of the tab's cache directory. */
  function ListScan(cache: Path, tab: string): (Path, string)
  {
    (ModeCacheDirectory(cache, tab), tab)
  }

  /** `extract` for a tab: one asset, else a whole directory when there is a destination. */
  function ExtractCommand(cache: Path, tab: string, asset: Option<string>, destination: Option<string>, addExtension: bool): (r: Action)
    ensures r.ExtractAsset? <==> asset.Some?
    ensures r.RefreshAndExtractDir? <==> asset.None? && destination.Some?
    ensures r.Complain? <==> asset.None? && destination.None?
  {
    var dir := ModeCacheDirectory(cache, tab);
    match asset
    case Some(a) => ExtractAsset(Join(dir, a), tab, Named(if destination.Some? then destination.value else a), addExtension)
    case None =>
      if destination.Some? then RefreshAndExtractDir(dir, tab, Named(destination.value))
      else Complain("Please provide either a destination path or an asset to extract!")
  }

  /** The priority-ordered decision table of `main`. */
  function Dispatch(args: Args, categories: seq<string>, cache: Path): (r: Action)
    ensures r.ListTabs? <==> args.list
    ensures (r.ExtractAsset? || r.RefreshAndExtractDir? || r.ExtractEverything?) ==> !args.list && (args.extract.Some? || args.extractAll)
    ensures !args.list && (args.extract.Some? || args.extractAll) ==>
      r.ExtractAsset? || r.RefreshAndExtractDir? || r.ExtractEverything? || r.Complain?
    ensures r.SwapAssets? <==> !args.list && args.extract.None? && !args.extractAll && args.swap.Some? && args.dest.Some?
    ensures r.PrintCacheDir? <==> !args.list && args.extract.None? && !args.extractAll && args.swap.None? && args.cacheDir
    ensures r.CheckForUpdates? <==> !args.list && args.extract.None? && !args.extractAll && args.swap.None? && !args.cacheDir
                                    && args.checkForUpdates
    ensures r.DownloadUpdate? <==> !args.list && args.extract.None? && !args.extractAll && args.swap.None? && !args.cacheDir
                                   && !args.checkForUpdates && args.downloadNewUpdate
    ensures r.RunGui? <==> !args.list && args.extract.None? && !args.extractAll && args.swap.None? && !args.cacheDir
                           && !args.checkForUpdates && !args.downloadNewUpdate
  {
    if args.list then
      match args.mode
      case Some(c) => ListTabs([ListScan(cache, GetTab(c))])
      case None => ListTabs(seq(|categories|, i requires 0 <= i < |categories| => ListScan(cache, categories[i])))
    else if args.extract.Some? || args.extractAll then
      match args.mode
      case Some(c) => ExtractCommand(cache, GetTab(c), args.extract, args.dest, args.extension)
      case None =>
        if args.dest.Some? then ExtractEverything(Named(args.dest.value))
        else Complain("--dest is required to extract all assets.")
    else if args.swap.Some? then
      if args.dest.Some? then
        SwapAssets(ModeCacheDirectory(cache, GetTab(if args.mode.Some? then args.mode.value else Images)), args.swap.value, args.dest.value)
      else Complain("--dest is required for swapping assets")
    else if args.cacheDir then PrintCacheDir(cache)
    else if args.checkForUpdates then CheckForUpdates
    else if args.downloadNewUpdate then DownloadUpdate
    else RunGui
  }

  /** Listing without a mode scans the http directory once per category, in the given order. */
  lemma ListWithoutMode(args: Args, categories: seq<string>, cache: Path)
    requires args.list && args.mode.None? && IsKeyOrder(categories)
    ensures var r := Dispatch(args, categories, cache);
            && |r.scans| == |categories|
            && forall i :: 0 <= i < |categories| ==> r.scans[i] == (Join(cache, "http"), categories[i])
  {
    MusicIsNotACategory();
    var r := Dispatch(args, categories, cache);
    forall i | 0 <= i < |categories|
      ensures r.scans[i] == (Join(cache, "http"), categories[i])
    {
      assert categories[i] in categories;
    }
  }

  /** Listing the music tab scans the sounds directory, and that scan changes nothing. */
  lemma ListMusicDoesNothing(args: Args, categories: seq<string>, cache: Path, s: Snapshot, listing: Option<seq<Entry>>, stopAt: nat)
    requires args.list && args.mode == Some(Music)
    ensures Dispatch(args, categories, cache) == ListTabs([(Join(cache, "sounds"), "music")])
    ensures RefreshEffect(s, GetTab(Music), listing, stopAt) == (s, NotStarted)
  {
    GetTabIsTable(Music);
    RefreshUnknownMode(s, listing, stopAt);
  }

  /** Extracting one asset reads it from the tab's cache directory and defaults the destination to its name. */
  lemma ExtractAssetDefaults(args: Args, categories: seq<string>, cache: Path, c: Category, asset: string)
    requires !args.list && args.mode == Some(c) && args.extract == Some(asset) && args.dest.None?
    ensures Dispatch(args, categories, cache)
         == ExtractAsset(Join(ModeCacheDirectory(cache, TabOf(c)), asset), TabOf(c), Named(asset), args.extension)
  {
    GetTabIsTable(c);
  }

  /** With a mode, `--extract-all` takes the directory path of `extract`: refresh, then extract the tab's directory. */
  lemma ExtractAllWithMode(args: Args, categories: seq<string>, cache: Path, c: Category, d: string)
    requires !args.list && args.extractAll && args.extract.None? && args.mode == Some(c) && args.dest == Some(d)
    ensures Dispatch(args, categories, cache) == RefreshAndExtractDir(ModeCacheDirectory(cache, TabOf(c)), TabOf(c), Named(d))
  {
    GetTabIsTable(c);
  }

  /** Without a mode, extracting needs `--dest` and then extracts everything into it. */
  lemma ExtractWithoutMode(args: Args, categories: seq<string>, cache: Path)
    requires !args.list && (args.extract.Some? || args.extractAll) && args.mode.None?
    ensures Dispatch(args, categories, cache) == if args.dest.Some? then ExtractEverything(Named(args.dest.value))
                                                 else Complain("--dest is required to extract all assets.")
  {
  }

  /** Swapping without a mode works in the images tab's directory, the http cache. */
  lemma SwapDefaultsToImages(args: Args, categories: seq<string>, cache: Path, a: string, b: string)
    requires !args.list && args.extract.None? && !args.extractAll && args.swap == Some(a) && args.dest == Some(b)
    requires args.mode.None?
    ensures Dispatch(args, categories, cache) == SwapAssets(Join(cache, "http"), a, b)
  {
    GetTabIsTable(Images);
  }
}
