/** `os.path.join` for two POSIX path components, as the scripts use it. */
module PosixPath {

  /** Joins `dir` and `name` with one '/', unless `dir` is empty or already
      ends with '/'. (An absolute `name`, which discards `dir`, does not
      occur at the call sites.) */
  function Join(dir: string, name: string): (p: string)
    ensures p == dir + name || p == dir + "/" + name
    ensures dir == "" ==> p == name
    ensures dir != "" && dir[|dir| - 1] == '/' ==> p == dir + name
    ensures dir != "" && dir[|dir| - 1] != '/' ==> p == dir + "/" + name
  {
    if dir == "" || dir[|dir| - 1] == '/' then dir + name else dir + "/" + name
  }

  /** The joined path always ends with the name that was joined. */
  lemma JoinEndsWithName(dir: string, name: string)
    ensures var p := Join(dir, name); |p| >= |name| && p[|p| - |name|..] == name
  {
    var p := Join(dir, name);
    assert p[|p| - |name|..] == name;
  }
}
