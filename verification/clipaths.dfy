/**
  Where the worker executable is looked for. Paths are kept as a root plus
  segments, so `path.join` is segment concatenation; it is rendered to text
  only for error messages.
 */
module CliPaths {
  import opened Wrappers

  /** `path.join(root, ...segments)`. */
  datatype FilePath = FilePath(root: string, segments: seq<string>)

  /** The last segment, the executable's file name. */
  function FileName(p: FilePath): string {
    if |p.segments| == 0 then p.root else p.segments[|p.segments| - 1]
  }

  /** The separator `path.join` uses on the host platform. */
  function Separator(platform: string): char {
    if platform == "win32" then '\\' else '/'
  }

  /** The text of a path, as interpolated into messages. */
  function Render(p: FilePath, platform: string): string {
    p.root + JoinSegments(p.segments, Separator(platform))
  }

  function JoinSegments(segments: seq<string>, sep: char): string {
    if |segments| == 0 then "" else [sep] + segments[0] + JoinSegments(segments[1..], sep)
  }

  /** Joined segments end with the separator and the last segment. */
  lemma {:induction false} JoinEndsWithLast(segments: seq<string>, sep: char)
    requires |segments| > 0
    ensures var j := JoinSegments(segments, sep);
            var tail := [sep] + segments[|segments| - 1];
            |j| >= |tail| && j[|j| - |tail|..] == tail
    decreases |segments|
  {
    var j := JoinSegments(segments, sep);
    var tail := [sep] + segments[|segments| - 1];
    if |segments| == 1 {
      assert JoinSegments(segments[1..], sep) == "";
      assert j == tail;
    } else {
      var rest := JoinSegments(segments[1..], sep);
      JoinEndsWithLast(segments[1..], sep);
      assert segments[1..][|segments[1..]| - 1] == segments[|segments| - 1];
      var head := [sep] + segments[0];
      assert j == head + rest;
      assert j[|j| - |tail|..] == rest[|rest| - |tail|..];
    }
  }

  /** A rendered path starts with its root and ends with the separator and
      the file name. */
  lemma RenderEndsWithFileName(p: FilePath, platform: string)
    requires |p.segments| > 0
    ensures var r := Render(p, platform);
            var tail := [Separator(platform)] + FileName(p);
            && |r| >= |p.root| + |tail|
            && r[..|p.root|] == p.root
            && r[|r| - |tail|..] == tail
  {
    var j := JoinSegments(p.segments, Separator(platform));
    JoinEndsWithLast(p.segments, Separator(platform));
    var r := Render(p, platform);
    assert r == p.root + j;
    var tail := [Separator(platform)] + FileName(p);
    assert r[|r| - |tail|..] == j[|j| - |tail|..];
  }

  /** The facts about the host process the worker clients read. */
  datatype HostEnv = HostEnv(
    nodeEnv: Option<string>,        // process.env.NODE_ENV
    platform: string,               // process.platform
    resourcesPath: Option<string>,  // process.resourcesPath, when defined
    cwd: string)                    // process.cwd()

  /** `NODE_ENV === "development" || !NODE_ENV`: unset and empty count as
      development. */
  predicate IsDevelopment(env: HostEnv) {
    env.nodeEnv == Some("development") || env.nodeEnv == None || env.nodeEnv == Some("")
  }

  /** The packaged executable's name. */
  function ExeName(platform: string): string {
    if platform == "win32" then "touchline_cli.exe" else "touchline_cli"
  }

  /** `getCliPath()` of the main-process client (the renderer client has the
      same code): development uses `<cwd>/resources/python/touchline_cli/touchline_cli`;
      otherwise the platform's executable under `resourcesPath/python/touchline_cli`,
      or under `<cwd>/resources/python/touchline_cli` when `resourcesPath` is
      undefined. */
  function WorkerCliPath(env: HostEnv): FilePath {
    if IsDevelopment(env) then
      FilePath(env.cwd, ["resources", "python", "touchline_cli", "touchline_cli"])
    else
      match env.resourcesPath
      case Some(rp) => FilePath(rp, ["python", "touchline_cli", ExeName(env.platform)])
      case None => FilePath(env.cwd, ["resources", "python", "touchline_cli", ExeName(env.platform)])
  }

  /** Where `WorkerCliPath` looks: the executable lies under
      `python/touchline_cli`; its name is `touchline_cli.exe` exactly in
      production on win32; development uses the working directory and
      production uses `resourcesPath` when it is defined. */
  lemma WorkerCliPathShape(env: HostEnv)
    ensures var p := WorkerCliPath(env);
            && |p.segments| >= 3
            && p.segments[|p.segments| - 3..|p.segments| - 1] == ["python", "touchline_cli"]
            && (FileName(p) == "touchline_cli.exe" <==> !IsDevelopment(env) && env.platform == "win32")
            && (IsDevelopment(env) ==> p == FilePath(env.cwd, ["resources", "python", "touchline_cli", "touchline_cli"]))
            && (!IsDevelopment(env) && env.resourcesPath.Some? ==> p.root == env.resourcesPath.value)
  {
  }

  /** The facts the worker manager reads: whether the app is packaged, its app
      and resources paths, and the platform. */
  datatype AppEnv = AppEnv(
    isPackaged: bool,
    appPath: string,
    resourcesPath: string,
    platform: string)

  /** The path `CLIManager.getCliPath()` checks: in development
      `<appPath>/resources/python/touchline_cli/touchline_cli`, when packaged
      `<resourcesPath>/python/touchline_cli/<exe>`. */
  function ManagerCliPath(env: AppEnv): FilePath {
    if !env.isPackaged then
      FilePath(env.appPath, ["resources", "python", "touchline_cli", "touchline_cli"])
    else
      FilePath(env.resourcesPath, ["python", "touchline_cli", ExeName(env.platform)])
  }

  /** Where `ManagerCliPath` looks: the name is `touchline_cli.exe` exactly
      when packaged on win32; a packaged app looks under `resourcesPath`, an
      unpackaged one under the app path. */
  lemma ManagerCliPathShape(env: AppEnv)
    ensures var p := ManagerCliPath(env);
            && (FileName(p) == "touchline_cli.exe" <==> env.isPackaged && env.platform == "win32")
            && (env.isPackaged ==> p.root == env.resourcesPath)
            && (!env.isPackaged ==> p.root == env.appPath)
  {
  }

  /** The two resolvers look in the same place when the manager's view of the
      app matches the host: packaged exactly in production, the app path being
      the working directory in development, `resourcesPath` defined and equal
      in production, and the same platform. */
  lemma ResolversAgree(h: HostEnv, a: AppEnv)
    requires IsDevelopment(h) <==> !a.isPackaged
    requires h.platform == a.platform
    requires IsDevelopment(h) ==> h.cwd == a.appPath
    requires !IsDevelopment(h) ==> h.resourcesPath == Some(a.resourcesPath)
    ensures WorkerCliPath(h) == ManagerCliPath(a)
  {
  }

  /** `getCliPath()` with its existence check: the path when the file exists,
      otherwise the error it throws, which names the path: after the fixed
      prefix comes the rendered path, starting at its root and ending with the
      executable's name. */
  function ResolveManagerCli(env: AppEnv, found: bool): (r: Result<FilePath, string>)
    ensures found <==> r.Success?
    ensures r.Success? ==> r.value == ManagerCliPath(env)
    ensures r.Failure? ==>
              var prefix := "CLI executable not found at: ";
              var p := ManagerCliPath(env);
              var name := FileName(p);
              && |r.error| >= |prefix| + |p.root| + |name|
              && r.error[..|prefix|] == prefix
              && r.error[|prefix|..] == Render(p, env.platform)
              && r.error[|prefix|..|prefix| + |p.root|] == p.root
              && r.error[|r.error| - |name|..] == name
  {
    var p := ManagerCliPath(env);
    RenderEndsWithFileName(p, env.platform);
    if found then Success(p) else Failure("CLI executable not found at: " + Render(p, env.platform))
  }
}
