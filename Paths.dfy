/** `Path.Combine` and the platform's directory separator. */
module Paths {
  import opened Text

  datatype Platform = Windows | Unix

  /** `Path.DirectorySeparatorChar`. */
  function DirectorySeparator(p: Platform): char {
    if p.Windows? then '\\' else '/'
  }

  /**
   * `Path.Combine(dir, name)` for a relative `name`: an empty side yields the
   * other one unchanged; otherwise a separator is put between the two unless
   * `dir` already ends with one.
   */
  function Combine(dir: string, name: string, sep: char): string {
    if dir == "" then name
    else if name == "" then dir
    else if dir[|dir| - 1] == sep then dir + name
    else dir + [sep] + name
  }

  /**
   * The combined path starts with the directory and ends with the name; an
   * empty side contributes nothing; and a non-empty name without separators
   * is the last segment of the result.
   */
  lemma CombineEndsWithName(dir: string, name: string, sep: char)
    ensures var r := Combine(dir, name, sep);
      && StartsWith(r, dir) && EndsWith(r, name)
      && (dir == "" ==> r == name)
      && (name == "" ==> r == dir)
      && (dir != "" && name != "" && sep !in name ==> LastSegment(r, sep) == name)
  {
    var r := Combine(dir, name, sep);
    if dir != "" && name != "" && sep !in name {
      if dir[|dir| - 1] == sep {
        assert r == dir[..|dir| - 1] + [sep] + name;
        SplitLastAfter(dir[..|dir| - 1], sep, name);
      } else {
        SplitLastAfter(dir, sep, name);
      }
    }
  }
}
