/**
 * Paths and directory resolution: an abstract `PathBuf`, the expansion of
 * the `%Temp%`, `%localappdata%` and `~` tokens, the per-tab cache
 * directory and the order in which cache directories are tried.
 */
module Paths {
  import opened Wrappers
  import opened Seqs

  /**
   * An abstract `PathBuf`: `Empty` is `PathBuf::new()`, `Named` a path
   * made from a string, `Join` is `join`, `WithExt` is `set_extension`.
   */
  datatype Path = Empty | Named(text: string) | Join(parent: Path, child: string) | WithExt(base: Path, ext: string)

  /** The filesystem root, which directory deletion refuses. */
  const ROOT := Named("/")

  /**
   * The directories deletion refuses: `PathBuf::new()`, which the empty
   * string also builds, and the root.
   */
  predicate Refused(dir: Path)
  {
    dir == Empty || dir == Named("") || dir == ROOT
  }

  /** The built-in cache locations: Windows, then Linux under Sober. */
  const DEFAULT_DIRECTORIES: seq<string> := ["%Temp%\\Roblox", "~/.var/app/org.vinegarhq.Sober/cache/sober"]

  function TempDir(user: string): string { "C:\\Users\\" + user + "\\AppData\\Local\\Temp" }
  function LocalAppData(user: string): string { "C:\\Users\\" + user + "\\AppData\\Local" }
  function Home(user: string): string { "/home/" + user }

  /**
   * `resolve_path`: replace every `%Temp%`, then every `%localappdata%`,
   * then every `~`, using the name of the current user.
   */
  function ResolvePath(directory: string, user: string): string
  {
    var a := ReplaceAll(directory, "%Temp%", TempDir(user));
    var b := ReplaceAll(a, "%localappdata%", LocalAppData(user));
    ReplaceAll(b, "~", Home(user))
  }

  /** A path with none of the three tokens resolves to itself. */
  lemma ResolvePlainPath(directory: string, user: string)
    requires forall i: nat :: !OccursAt(directory, "%Temp%", i)
    requires forall i: nat :: !OccursAt(directory, "%localappdata%", i)
    requires forall i: nat :: !OccursAt(directory, "~", i)
    ensures ResolvePath(directory, user) == directory
  {
    ReplaceAbsent(directory, "%Temp%", TempDir(user));
    ReplaceAbsent(directory, "%localappdata%", LocalAppData(user));
    ReplaceAbsent(directory, "~", Home(user));
  }

  /** After resolution no `~` is left, unless the user name itself holds one. */
  lemma ResolveRemovesTilde(directory: string, user: string)
    requires '~' !in user
    ensures '~' !in ResolvePath(directory, user)
  {
    var b := ReplaceAll(ReplaceAll(directory, "%Temp%", TempDir(user)), "%localappdata%", LocalAppData(user));
    assert Home(user) == "/home/" + user;
    assert '~' !in Home(user);
    ReplaceRemovesSingle(b, '~', Home(user));
  }

  /** `get_mode_cache_directory`: the music tab reads `sounds`, every other tab `http`. */
  function ModeCacheDirectory(cache: Path, mode: string): (r: Path)
    ensures r.Join? && r.parent == cache
    ensures r.child == "sounds" <==> mode == "music"
    ensures r.child == "http" <==> mode != "music"
  {
    if mode == "music" then Join(cache, "sounds") else Join(cache, "http")
  }

  /** The candidates `detect_directory` tries: the configured one (quotes removed), then the defaults. */
  function Candidates(configured: Option<string>): seq<string>
  {
    (if configured.Some? then [ReplaceAll(configured.value, "\"", "")] else []) + DEFAULT_DIRECTORIES
  }

  /** The first resolved candidate, from position `i` on, that `isDir` accepts. */
  function FirstDirectory(cs: seq<string>, i: nat, user: string, isDir: string -> bool): (r: Option<string>)
    decreases |cs| - i
    ensures r.Some? ==> exists k :: (i <= k < |cs| && r.value == ResolvePath(cs[k], user) && isDir(r.value)
                                     && forall j :: i <= j < k ==> !isDir(ResolvePath(cs[j], user)))
    ensures r.None? ==> forall j :: i <= j < |cs| ==> !isDir(ResolvePath(cs[j], user))
  {
    if i >= |cs| then None
    else if isDir(ResolvePath(cs[i], user)) then Some(ResolvePath(cs[i], user))
    else FirstDirectory(cs, i + 1, user, isDir)
  }

  /**
   * `detect_directory` up to its interactive fallback: the configured
   * directory when it resolves to a directory, else the first default that
   * does; None stands for the dialog-and-panic path.
   */
  function DetectDirectory(configured: Option<string>, user: string, isDir: string -> bool): (r: Option<string>)
    ensures configured.Some? && isDir(ResolvePath(ReplaceAll(configured.value, "\"", ""), user)) ==>
      r == Some(ResolvePath(ReplaceAll(configured.value, "\"", ""), user))
    ensures r.None? <==> forall c :: c in Candidates(configured) ==> !isDir(ResolvePath(c, user))
    ensures r.Some? ==> exists c :: c in Candidates(configured) && r.value == ResolvePath(c, user) && isDir(r.value)
    ensures r.Some? ==> exists k :: (0 <= k < |Candidates(configured)| && r.value == ResolvePath(Candidates(configured)[k], user)
                                     && isDir(r.value)
                                     && forall j :: 0 <= j < k ==> !isDir(ResolvePath(Candidates(configured)[j], user)))
  {
    var cs := Candidates(configured);
    FirstDirectoryAmong(cs, user, isDir);
    FirstDirectory(cs, 0, user, isDir)
  }

  /** The first directory among all of `cs` is none iff no candidate is one, and otherwise one of them. */
  lemma FirstDirectoryAmong(cs: seq<string>, user: string, isDir: string -> bool)
    ensures var r := FirstDirectory(cs, 0, user, isDir);
            && (r.None? <==> forall c :: c in cs ==> !isDir(ResolvePath(c, user)))
            && (r.Some? ==> exists c :: c in cs && r.value == ResolvePath(c, user) && isDir(r.value))
  {
    var r := FirstDirectory(cs, 0, user, isDir);
    if r.Some? {
      var k :| 0 <= k < |cs| && r.value == ResolvePath(cs[k], user) && isDir(r.value);
      assert cs[k] in cs;
    }
  }

  /**
   * When there is no configured directory, or it does not resolve to a
   * directory, the Windows location wins over the Linux one.
   */
  lemma DefaultsInOrder(configured: Option<string>, user: string, isDir: string -> bool)
    requires configured.None? || !isDir(ResolvePath(ReplaceAll(configured.value, "\"", ""), user))
    requires isDir(ResolvePath(DEFAULT_DIRECTORIES[0], user))
    ensures DetectDirectory(configured, user, isDir) == Some(ResolvePath(DEFAULT_DIRECTORIES[0], user))
  {
    var cs := Candidates(configured);
    var w := if configured.Some? then 1 else 0;
    assert cs[w] == DEFAULT_DIRECTORIES[0];
    assert forall j :: 0 <= j < w ==> !isDir(ResolvePath(cs[j], user));
  }
}
