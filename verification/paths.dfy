/** The parts of `os.path` that the output parser uses, with POSIX
    (`posixpath`) semantics. */
module Paths {
  import opened Text

  /** `os.path.isabs(p)`. */
  predicate IsAbs(p: string) {
    |p| > 0 && p[0] == '/'
  }

  /** `os.path.join(a, b)` for two components. */
  function Join(a: string, b: string): (r: string)
    ensures IsAbs(b) ==> r == b
    ensures !IsAbs(b) ==> StartsWith(r, a) && EndsWith(r, b)
    ensures IsAbs(a) ==> IsAbs(r)
  {
    if IsAbs(b) then b
    else if a == [] || a[|a| - 1] == '/' then a + b
    else a + "/" + b
  }

  /** `os.path.abspath(p)` for a process whose working directory is `cwd`,
      without the collapsing of `.` and `..` segments. */
  function AbsPath(cwd: string, p: string): (r: string)
    requires IsAbs(cwd)
    ensures IsAbs(r)
    ensures IsAbs(p) ==> r == p
  {
    if IsAbs(p) then p else Join(cwd, p)
  }
}
