/**
 * util/os/path: resolving a configuration file name against the directory
 * of the running executable. That directory (filepath.Dir(os.Args[0])) is a
 * parameter here.
 */
module Path {
  import opened Wrappers

  /** filepath.IsAbs on Unix: the path starts with a slash. */
  predicate IsAbs(path: string) { |path| > 0 && path[0] == '/' }

  predicate EndsWith(s: string, suffix: string) { |suffix| <= |s| && s[|s| - |suffix|..] == suffix }

  /**
   * GetPath returns an absolute file name unchanged and otherwise puts the
   * executable's directory and a slash in front of it. The error result is
   * always nil.
   */
  function GetPath(file: string, exeDir: string): (r: (string, Option<string>))
    ensures r.1 == None
    ensures IsAbs(file) ==> r.0 == file
    ensures !IsAbs(file) ==> r.0 == exeDir + "/" + file
    ensures EndsWith(r.0, file)
    ensures |exeDir| > 0 ==> (IsAbs(r.0) <==> IsAbs(file) || IsAbs(exeDir))
  {
    if IsAbs(file) then (file, None) else (exeDir + "/" + file, None)
  }
}
