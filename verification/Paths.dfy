/** Splitting, joining and the portable relative paths `_safe_relative_path` accepts. */
module Paths {

  /** Python's `s.split(c)`: never empty, `Join` undoes it. */
  function Split(s: string, c: char): (r: seq<string>)
    ensures |r| > 0
  {
    if s == "" then [""]
    else
      var rest := Split(s[1..], c);
      if s[0] == c then [""] + rest else [[s[0]] + rest[0]] + rest[1..]
  }

  /** Python's `c.join(parts)`. */
  function Join(parts: seq<string>, c: char): string {
    if parts == [] then ""
    else if |parts| == 1 then parts[0]
    else parts[0] + [c] + Join(parts[1..], c)
  }

  /** The components of a `PurePosixPath`: empty and `.` components vanish. */
  function Parts(pieces: seq<string>): seq<string> {
    if pieces == [] then []
    else (if pieces[0] == "" || pieces[0] == "." then [] else [pieces[0]]) + Parts(pieces[1..])
  }

  /** Accepted by `_safe_relative_path`: relative, non-empty, and no `..` component. */
  predicate IsSafe(path: string) {
    && !(path != "" && path[0] == '/')
    && ".." !in Parts(Split(path, '/'))
    && Parts(Split(path, '/')) != []
  }

  /** `PurePosixPath(path).as_posix()` of a relative path. */
  function Normal(path: string): string {
    Join(Parts(Split(path, '/')), '/')
  }
}
