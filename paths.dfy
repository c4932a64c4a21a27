/**
 * The string calculations of yml_config.go that decide where the
 * configuration file is looked for and which namespace a loader uses:
 * `BasePath`, the directory logic of `CreateYamlFactory`, the config name
 * and the namespace prefix.
 */
module Paths {
  import opened Wrappers
  import opened Text
  import opened Values

  /**
   * The process is a unit test run (its first argument starts with
   * "-test") and the working directory is longer than the non-empty
   * project name.
   */
  predicate TestMode(project: string, curPath: string, args: seq<string>)
  {
    |project| != 0 && |curPath| > |project| && |args| > 1 && HasPrefix(args[1], "-test")
  }

  /**
   * The value `BasePath` gives the package-level `basePath`: in a test run,
   * the working directory cut just after the first occurrence of the
   * project name when that occurrence is not at position 0, the previous
   * value otherwise; outside a test run, the working directory.
   */
  function ResolvedBase(project: string, curPath: string, args: seq<string>, retained: string): (b: string)
    ensures !TestMode(project, curPath, args) ==> b == curPath
    ensures TestMode(project, curPath, args) ==>
      b == retained || (HasPrefix(curPath, b) && |b| >= |project| && OccursAt(b, project, |b| - |project|))
  {
    if TestMode(project, curPath, args) then
      var i := Index(curPath, project);
      if i > 0 then
        assert curPath[..i] + project == curPath[..i + |project|];
        curPath[..i] + project
      else retained
    else curPath
  }

  /** Outside a test run the base is the working directory itself. */
  lemma BaseOutsideTests(project: string, curPath: string, args: seq<string>, retained: string)
    requires !TestMode(project, curPath, args)
    ensures ResolvedBase(project, curPath, args, retained) == curPath
  {
  }

  /**
   * In a test run where the project name occurs in the working directory
   * past position 0, the base is the shortest such start of the working
   * directory that ends with the project name.
   */
  lemma BaseInsideTests(project: string, curPath: string, args: seq<string>, retained: string, i: int)
    requires TestMode(project, curPath, args)
    requires 0 < i && OccursAt(curPath, project, i)
    requires !OccursAt(curPath, project, 0)
    ensures var b := ResolvedBase(project, curPath, args, retained);
      && HasPrefix(curPath, b)
      && OccursAt(b, project, |b| - |project|)
      && |b| <= i + |project|
      && forall j :: 0 <= j < |b| - |project| ==> !OccursAt(curPath, project, j)
  {
    var k := Index(curPath, project);
    assert k != -1;
    assert k <= i;
    assert curPath[..k] + project == curPath[..k + |project|];
  }

  /**
   * In a test run where the project name is missing from the working
   * directory, or occurs only at its start, the previous base is kept.
   */
  lemma BaseRetained(project: string, curPath: string, args: seq<string>, retained: string)
    requires TestMode(project, curPath, args)
    requires OccursAt(curPath, project, 0) || forall j :: 0 <= j <= |curPath| - |project| ==> !OccursAt(curPath, project, j)
    ensures ResolvedBase(project, curPath, args, retained) == retained
  {
  }

  /** The package-level `basePath` that `BasePath` keeps between calls. */
  class PathState {
    var basePath: string

    constructor ()
      ensures basePath == ""
    {
      basePath := "";
    }
  }

  /**
   * `BasePath(project)`: the configuration base directory with a trailing
   * slash. `wd` is the result of `os.Getwd` (None when it fails, which is
   * fatal) and `args` stands for `os.Args`.
   */
  method BasePath(state: PathState, project: string, wd: Option<string>, args: seq<string>)
    returns (r: Result<string, Fault>)
    modifies state
    ensures wd.None? ==> r == Err(NoWorkingDir) && state.basePath == old(state.basePath)
    ensures wd.Some? ==> state.basePath == ResolvedBase(project, wd.value, args, old(state.basePath))
    ensures wd.Some? ==> r == Ok(state.basePath + "/")
  {
    if wd.None? {
      return Err(NoWorkingDir);
    }
    var curPath := wd.value;
    var pl, cl := |project|, |curPath|;
    if pl != 0 && cl > pl && |args| > 1 && HasPrefix(args[1], "-test") {
      var i := Index(curPath, project);
      if i > 0 {
        state.basePath := curPath[..i] + project;
      }
    } else {
      state.basePath := curPath;
    }
    return Ok(state.basePath + "/");
  }

  /** A relative path that asks for an extension of the base directory. */
  predicate Extends(relativePath: string)
  {
    |relativePath| > 0 && relativePath != "." && relativePath != "./"
  }

  /**
   * The configuration directory exactly as `CreateYamlFactory` computes it:
   * a relative path starting with "./" is replaced by `fileName` without its
   * first character, which panics when `fileName` is empty.
   */
  function ConfigDirAsWritten(base: string, relativePath: string, fileName: string): (r: Result<string, Fault>)
    ensures r.Err? <==> Extends(relativePath) && HasPrefix(relativePath, "./") && |fileName| == 0
    ensures r.Ok? ==> HasPrefix(r.value, base)
    ensures !Extends(relativePath) ==> r == Ok(base)
  {
    PrefixOfConcat(base, relativePath);
    PrefixOfConcat(base, if |fileName| < 1 then "" else fileName[1..]);
    if Extends(relativePath) then
      if HasPrefix(relativePath, "./") then
        if |fileName| < 1 then Err(SliceOutOfRange) else Ok(base + fileName[1..])
      else Ok(base + relativePath)
    else Ok(base)
  }

  /** What the replacement evidently means: the relative path without its leading "./". */
  function ConfigDir(base: string, relativePath: string): (d: string)
    ensures HasPrefix(d, base)
    ensures !Extends(relativePath) ==> d == base
  {
    PrefixOfConcat(base, relativePath);
    PrefixOfConcat(base, if |relativePath| < 2 then "" else relativePath[2..]);
    if Extends(relativePath) then
      if HasPrefix(relativePath, "./") then base + relativePath[2..] else base + relativePath
    else base
  }

  /** As written, "./conf" loses the directory name in favour of the file name, or panics. */
  lemma ConfigDirAsWrittenDropsPath()
    ensures ConfigDirAsWritten("/w/", "./conf", "app") == Ok("/w/pp")
    ensures ConfigDirAsWritten("/w/", "./conf", "") == Err(SliceOutOfRange)
    ensures ConfigDir("/w/", "./conf") == "/w/conf"
  {
    assert HasPrefix("./conf", "./");
    assert "./conf"[2..] == "conf";
    assert "app"[1..] == "pp";
    assert Extends("./conf");
    assert "/w/" + "pp" == "/w/pp";
  }

  /**
   * The base directory is always kept, and it is extended exactly when the
   * relative path is neither empty, ".", nor "./".
   */
  lemma ConfigDirExtendsBase(base: string, relativePath: string)
    ensures HasPrefix(ConfigDir(base, relativePath), base)
    ensures ConfigDir(base, relativePath) == base <==> !Extends(relativePath)
  {
    var d := ConfigDir(base, relativePath);
    if Extends(relativePath) {
      if HasPrefix(relativePath, "./") {
        PrefixOfConcat(base, relativePath[2..]);
      } else {
        PrefixOfConcat(base, relativePath);
      }
    } else {
      assert base[..|base|] == base;
    }
  }

  /** "./x" and "x" name the same directory. */
  lemma ConfigDirDotSlash(base: string, x: string)
    requires Extends(x) && !HasPrefix(x, "./")
    ensures ConfigDir(base, "./" + x) == ConfigDir(base, x)
  {
    PrefixOfConcat("./", x);
    assert ("./" + x)[2..] == x;
  }

  /** The base name of the file to read; "config" when none is given. */
  function ConfigName(fileName: string): (n: string)
    ensures |n| > 0
    ensures |fileName| > 0 ==> n == fileName
  {
    if |fileName| == 0 then "config" else fileName
  }

  /** The namespace of a loader made by the factory: its config name and an underscore. */
  function FactoryPrefix(fileName: string): (p: string)
    ensures p == ConfigName(fileName) + "_"
  {
    if |fileName| == 0 then "config_" else fileName + "_"
  }
}
