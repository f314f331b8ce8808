/** Per-operating-system application directories (src/core/appdirs.ts).

    The operating system and the process environment are parameters. A path is
    the list of its segments; `join` drops empty parts, as the path library
    does with "". Rendering a path as text (separator, normalisation of ".."
    and of trailing separators) is not modelled. */
module AppDirs {
  import opened Options

  datatype Os = Darwin | Linux | Windows | OtherOs(name: string)

  type Env = map<string, string>

  /** A path as the list of its segments. */
  type Path = seq<string>

  /** Which of the four directory functions `quartoDir` is handed. */
  datatype DirKind = DataDir | ConfigDir | CacheDir | RuntimeDir

  const QuartoAppName := "quarto"

  /** No segment is empty. */
  predicate Normalised(p: Path) {
    forall i :: 0 <= i < |p| ==> p[i] != ""
  }

  /** `join(...parts)`: the non-empty parts, in order. */
  function Join(parts: seq<string>): (p: Path)
    ensures Normalised(p)
    ensures |p| <= |parts|
    ensures |parts| > 0 && parts[|parts| - 1] != "" ==> |p| > 0 && p[|p| - 1] == parts[|parts| - 1]
  {
    if parts == [] then []
    else if parts[0] == "" then Join(parts[1..])
    else [parts[0]] + Join(parts[1..])
  }

  lemma {:induction false} JoinConcat(a: seq<string>, b: seq<string>)
    ensures Join(a + b) == Join(a) + Join(b)
  {
    if a == [] {
      assert a + b == b;
    } else {
      assert (a + b)[1..] == a[1..] + b;
      JoinConcat(a[1..], b);
    }
  }

  lemma {:induction false} JoinNormalised(p: Path)
    requires Normalised(p)
    ensures Join(p) == p
  {
    if p != [] {
      JoinNormalised(p[1..]);
    }
  }

  /** Appending to an already joined path adds exactly the non-empty parts. */
  lemma JoinOnto(base: Path, more: seq<string>)
    requires Normalised(base)
    ensures Join(base + more) == base + Join(more)
  {
    JoinConcat(base, more);
    JoinNormalised(base);
  }

  /** `Deno.env.get(key) || fallback`: an unset or empty variable gives the fallback. */
  function EnvOr(env: Env, key: string, fallback: string): string {
    if key in env && env[key] != "" then env[key] else fallback
  }

  /** `Deno.env.get(key) || fallback` where the fallback is a joined path. */
  function EnvPathOr(env: Env, key: string, fallback: Path): Path {
    if key in env && env[key] != "" then [env[key]] else fallback
  }

  function Home(env: Env): string {
    EnvOr(env, "HOME", "")
  }

  // ----- The XDG Base Directory Specification, "Environment variables" -----

  datatype XdgBase = DataHome | ConfigHome | CacheHome

  function XdgVariable(b: XdgBase): string {
    match b
    case DataHome => "XDG_DATA_HOME"
    case ConfigHome => "XDG_CONFIG_HOME"
    case CacheHome => "XDG_CACHE_HOME"
  }

  /** The default below $HOME that the standard gives each base directory. */
  function XdgDefault(b: XdgBase): seq<string> {
    match b
    case DataHome => [".local", "share"]
    case ConfigHome => [".config"]
    case CacheHome => [".cache"]
  }

  /** The standard's rule: the variable when it is set and not empty,
      otherwise its default below $HOME ($HOME itself read as "" when unset). */
  function XdgBaseDirectory(env: Env, b: XdgBase): (p: Path)
    ensures Normalised(p)
  {
    var v := XdgVariable(b);
    if v in env && env[v] != "" then [env[v]] else Join([Home(env)] + XdgDefault(b))
  }

  // ----- Linux -----

  function XdgUserDataDir(env: Env, appName: string): (p: Path)
    ensures p == XdgBaseDirectory(env, DataHome) + Join([appName])
  {
    var dataHome := EnvPathOr(env, "XDG_DATA_HOME", Join([Home(env), ".local", "share"]));
    JoinOnto(dataHome, [appName]);
    Join(dataHome + [appName])
  }

  function XdgUserConfigDir(env: Env, appName: string): (p: Path)
    ensures p == XdgBaseDirectory(env, ConfigHome) + Join([appName])
  {
    var configHome := EnvPathOr(env, "XDG_CONFIG_HOME", Join([Home(env), ".config"]));
    JoinOnto(configHome, [appName]);
    Join(configHome + [appName])
  }

  function XdgUserCacheDir(env: Env, appName: string): (p: Path)
    ensures p == XdgBaseDirectory(env, CacheHome) + Join([appName])
  {
    var cacheHome := EnvPathOr(env, "XDG_CACHE_HOME", Join([Home(env), ".cache"]));
    JoinOnto(cacheHome, [appName]);
    Join(cacheHome + [appName])
  }

  /** Unlike the standard, which gives XDG_RUNTIME_DIR no default, an unset or
      empty variable falls back to the data directory; a set one is returned
      without the application name. */
  function XdgUserRuntimeDir(env: Env, appName: string): (p: Path)
    ensures Normalised(p)
    ensures EnvOr(env, "XDG_RUNTIME_DIR", "") != "" ==> p == [env["XDG_RUNTIME_DIR"]]
    ensures EnvOr(env, "XDG_RUNTIME_DIR", "") == "" ==> p == XdgBaseDirectory(env, DataHome) + Join([appName])
  {
    var runtimeDir := EnvOr(env, "XDG_RUNTIME_DIR", "");
    if runtimeDir != "" then [runtimeDir] else XdgUserDataDir(env, appName)
  }

  // ----- macOS and Windows -----

  /** Joining a part, two fixed segments and a part keeps the segments. */
  lemma JoinAround(first: string, mid: seq<string>, last: string)
    requires |mid| == 2 && Normalised(mid)
    ensures Join([first, mid[0], mid[1], last]) == Join([first]) + mid + Join([last])
  {
    JoinConcat([first] + mid, [last]);
    JoinConcat([first], mid);
    JoinNormalised(mid);
    assert [first] + mid + [last] == [first, mid[0], mid[1], last];
  }

  /** $HOME (when set and not empty), Library, Application Support, then the name. */
  function DarwinUserDataDir(env: Env, appName: string): (p: Path)
    ensures p == Join([Home(env)]) + ["Library", "Application Support"] + Join([appName])
  {
    JoinAround(Home(env), ["Library", "Application Support"], appName);
    Join([Home(env), "Library", "Application Support", appName])
  }

  /** $HOME (when set and not empty), Library, Caches, then the name. */
  function DarwinUserCacheDir(env: Env, appName: string): (p: Path)
    ensures p == Join([Home(env)]) + ["Library", "Caches"] + Join([appName])
  {
    JoinAround(Home(env), ["Library", "Caches"], appName);
    Join([Home(env), "Library", "Caches", appName])
  }

  /** APPDATA when roaming, LOCALAPPDATA otherwise (either read as "" when
      unset or empty), then the name. */
  function WindowsUserDataDir(env: Env, appName: string, roaming: bool): (p: Path)
    ensures p == Join([EnvOr(env, if roaming then "APPDATA" else "LOCALAPPDATA", "")]) + Join([appName])
  {
    var dir := if roaming then EnvOr(env, "APPDATA", "") else EnvOr(env, "LOCALAPPDATA", "");
    JoinConcat([dir], [appName]);
    assert [dir] + [appName] == [dir, appName];
    Join([dir, appName])
  }

  // ----- The four public directory functions -----

  function UserDataDir(os: Os, env: Env, appName: string, roaming: bool): (p: Path)
    ensures Normalised(p)
    ensures !os.OtherOs? && appName != "" ==> |p| > 0 && p[|p| - 1] == appName
  {
    match os
    case Darwin => DarwinUserDataDir(env, appName)
    case Linux => XdgUserDataDir(env, appName)
    case Windows => WindowsUserDataDir(env, appName, roaming)
    case OtherOs(_) => []
  }

  function UserConfigDir(os: Os, env: Env, appName: string, roaming: bool): (p: Path)
    ensures Normalised(p)
    ensures !os.OtherOs? && appName != "" ==> |p| > 0 && p[|p| - 1] == appName
  {
    match os
    case Darwin => DarwinUserDataDir(env, appName)
    case Linux => XdgUserConfigDir(env, appName)
    case Windows => WindowsUserDataDir(env, appName, roaming)
    case OtherOs(_) => []
  }

  function UserCacheDir(os: Os, env: Env, appName: string): (p: Path)
    ensures Normalised(p)
    ensures !os.OtherOs? && appName != "" ==> |p| > 0 && p[|p| - 1] == appName
  {
    match os
    case Darwin => DarwinUserCacheDir(env, appName)
    case Linux => XdgUserCacheDir(env, appName)
    case Windows => WindowsUserDataDir(env, appName, false)
    case OtherOs(_) => []
  }

  /** Ends in the application name except on Linux with XDG_RUNTIME_DIR set. */
  function UserRuntimeDir(os: Os, env: Env, appName: string): (p: Path)
    ensures Normalised(p)
    ensures !os.OtherOs? && appName != "" && !(os.Linux? && EnvOr(env, "XDG_RUNTIME_DIR", "") != "")
      ==> |p| > 0 && p[|p| - 1] == appName
  {
    match os
    case Darwin => DarwinUserCacheDir(env, appName)
    case Linux => XdgUserRuntimeDir(env, appName)
    case Windows => WindowsUserDataDir(env, appName, false)
    case OtherOs(_) => []
  }

  // ----- quartoDir and its wrappers -----

  /** The directory function `quartoDir` is handed; the cache and runtime
      functions take no roaming flag. */
  function UserDir(kind: DirKind, os: Os, env: Env, appName: string, roaming: bool): Path {
    match kind
    case DataDir => UserDataDir(os, env, appName, roaming)
    case ConfigDir => UserConfigDir(os, env, appName, roaming)
    case CacheDir => UserCacheDir(os, env, appName)
    case RuntimeDir => UserRuntimeDir(os, env, appName)
  }

  /** The application's directory for "quarto", with `subdir` appended when it
      is given and not empty. Creating the directory is not modelled. */
  function QuartoDir(kind: DirKind, os: Os, env: Env, subdir: Option<string>, roaming: bool): (p: Path)
    ensures Normalised(p)
    ensures subdir == None || subdir == Some("") ==> p == UserDir(kind, os, env, QuartoAppName, roaming)
    ensures subdir.Some? && subdir.value != "" ==> p == UserDir(kind, os, env, QuartoAppName, roaming) + [subdir.value]
  {
    var dir := UserDir(kind, os, env, QuartoAppName, roaming);
    if subdir.Some? && subdir.value != "" then
      JoinOnto(dir, [subdir.value]);
      Join(dir + [subdir.value])
    else
      dir
  }

  /** The segment a sub-directory adds: none when it is absent or empty. */
  function SubdirPart(subdir: Option<string>): Path {
    if subdir.Some? && subdir.value != "" then [subdir.value] else []
  }

  function QuartoDataDir(os: Os, env: Env, subdir: Option<string>, roaming: bool): (p: Path)
    ensures p == UserDataDir(os, env, QuartoAppName, roaming) + SubdirPart(subdir)
  {
    QuartoDir(DataDir, os, env, subdir, roaming)
  }

  function QuartoConfigDir(os: Os, env: Env, subdir: Option<string>, roaming: bool): (p: Path)
    ensures p == UserConfigDir(os, env, QuartoAppName, roaming) + SubdirPart(subdir)
  {
    QuartoDir(ConfigDir, os, env, subdir, roaming)
  }

  /** No roaming flag: the data directory it may fall back to is the local one. */
  function QuartoCacheDir(os: Os, env: Env, subdir: Option<string>): (p: Path)
    ensures p == UserCacheDir(os, env, QuartoAppName) + SubdirPart(subdir)
  {
    QuartoDir(CacheDir, os, env, subdir, false)
  }

  function QuartoRuntimeDir(os: Os, env: Env, subdir: Option<string>): (p: Path)
    ensures p == UserRuntimeDir(os, env, QuartoAppName) + SubdirPart(subdir)
  {
    QuartoDir(RuntimeDir, os, env, subdir, false)
  }

  // ----- Properties -----

  /** On Linux the data, config and cache directories are the XDG base
      directories with the application name appended. */
  lemma LinuxDirsFollowXdg(env: Env, appName: string, roaming: bool)
    ensures UserDataDir(Linux, env, appName, roaming) == XdgBaseDirectory(env, DataHome) + Join([appName])
    ensures UserConfigDir(Linux, env, appName, roaming) == XdgBaseDirectory(env, ConfigHome) + Join([appName])
    ensures UserCacheDir(Linux, env, appName) == XdgBaseDirectory(env, CacheHome) + Join([appName])
  {
  }

  /** With XDG_DATA_HOME set, the data directory is that variable and the
      application name; otherwise $HOME/.local/share and the name. */
  lemma LinuxDataDirCases(env: Env, appName: string, roaming: bool)
    requires appName != ""
    ensures "XDG_DATA_HOME" in env && env["XDG_DATA_HOME"] != "" ==>
      UserDataDir(Linux, env, appName, roaming) == [env["XDG_DATA_HOME"], appName]
    ensures !("XDG_DATA_HOME" in env && env["XDG_DATA_HOME"] != "") ==>
      UserDataDir(Linux, env, appName, roaming) == Join([Home(env), ".local", "share", appName])
  {
    JoinConcat([Home(env), ".local", "share"], [appName]);
    assert [Home(env), ".local", "share"] + [appName] == [Home(env), ".local", "share", appName];
  }

  /** The runtime directory is XDG_RUNTIME_DIR itself when set and not empty,
      and the data directory otherwise. */
  lemma LinuxRuntimeDirFallsBackToData(env: Env, appName: string, roaming: bool)
    ensures "XDG_RUNTIME_DIR" in env && env["XDG_RUNTIME_DIR"] != "" ==>
      UserRuntimeDir(Linux, env, appName) == [env["XDG_RUNTIME_DIR"]]
    ensures !("XDG_RUNTIME_DIR" in env && env["XDG_RUNTIME_DIR"] != "") ==>
      UserRuntimeDir(Linux, env, appName) == UserDataDir(Linux, env, appName, roaming)
  {
  }

  /** On macOS data and config share Application Support, cache and runtime
      share Caches, and roaming plays no part. */
  lemma DarwinSharedDirs(env: Env, appName: string, roaming: bool)
    ensures UserDataDir(Darwin, env, appName, roaming) == UserConfigDir(Darwin, env, appName, roaming)
      == Join([Home(env), "Library", "Application Support", appName])
    ensures UserCacheDir(Darwin, env, appName) == UserRuntimeDir(Darwin, env, appName)
      == Join([Home(env), "Library", "Caches", appName])
  {
  }

  /** On Windows roaming picks APPDATA, otherwise LOCALAPPDATA; cache and
      runtime always take the local choice. */
  lemma WindowsDirs(env: Env, appName: string, roaming: bool)
    ensures UserDataDir(Windows, env, appName, roaming) == UserConfigDir(Windows, env, appName, roaming)
      == Join([EnvOr(env, if roaming then "APPDATA" else "LOCALAPPDATA", ""), appName])
    ensures UserCacheDir(Windows, env, appName) == UserRuntimeDir(Windows, env, appName)
      == UserDataDir(Windows, env, appName, false)
  {
  }

  /** An operating system other than the three gives "" everywhere. */
  lemma UnknownOsHasNoDirs(name: string, env: Env, appName: string, roaming: bool)
    ensures UserDataDir(OtherOs(name), env, appName, roaming) == []
    ensures UserConfigDir(OtherOs(name), env, appName, roaming) == []
    ensures UserCacheDir(OtherOs(name), env, appName) == []
    ensures UserRuntimeDir(OtherOs(name), env, appName) == []
  {
  }

  /** The cache and runtime wrappers never roam: on Windows both are the
      local data directory. */
  lemma QuartoCacheAndRuntimeNeverRoam(env: Env, subdir: Option<string>)
    ensures QuartoCacheDir(Windows, env, subdir) == QuartoRuntimeDir(Windows, env, subdir)
      == QuartoDataDir(Windows, env, subdir, false)
  {
  }
}
