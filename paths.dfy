/**
 * The parts of Node's `path` module and of the file system that the bundler
 * consults. `path.resolve` and `path.relative` depend on the working
 * directory and the platform, so they are parameters; the file system is a
 * map from paths to what `lstat` reports for them.
 */
module Paths {
  import Text

  /** The platform's path separator and its `path.resolve` / `path.relative`. */
  datatype PathApi = PathApi(
    sep: char,
    resolve: string -> string,
    relative: (string, string) -> string)

  /** `path.join(a, b)` for two parts that need no normalisation. */
  function JoinPath(api: PathApi, a: string, b: string): string {
    a + [api.sep] + b
  }

  /** `path.basename(p)`: the last segment, ignoring trailing separators. */
  function Basename(api: PathApi, p: string): (b: string)
    ensures api.sep !in b
    ensures Text.EndsWith(p, b) || (p != [] && p[|p| - 1] == api.sep)
    decreases |p|
  {
    if p != [] && p[|p| - 1] == api.sep then
      if |p| == 1 then [] else Basename(api, p[..|p| - 1])
    else Text.AfterLast(p, api.sep)
  }

  /** What `fs.lstatSync` reports about an existing path. */
  datatype EntryKind = File | Directory | SymbolicLink

  /** The file system as far as `fs.existsSync` and `fs.lstatSync` see it. */
  type FileSystem = map<string, EntryKind>
}
