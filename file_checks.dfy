/**
 * The existence checks of bin/utils.ts (and their copies in src/utils.ts):
 * a missing file or directory is a fatal error, reported with the caller's
 * message or a default one.
 */
module FileChecks {
  import opened Wrappers
  import opened Paths

  /** `message ?? default` */
  function MessageOr(message: Option<string>, default: string): string {
    match message
    case Some(m) => m
    case None => default
  }

  function MissingFileMessage(path: string): string {
    "Cannot find file '" + path + "'"
  }

  function MissingDirectoryMessage(path: string): string {
    "Cannot find directory '" + path + "'"
  }

  /** `checkDirExists`: the path exists and `lstat` calls it a directory or a symbolic link. */
  predicate CheckDirExists(fs: FileSystem, path: string) {
    path in fs && (fs[path] == Directory || fs[path] == SymbolicLink)
  }

  /** `ensureDirExists`: fails exactly when `checkDirExists` is false. */
  function EnsureDirExists(fs: FileSystem, path: string, message: Option<string>): (r: Outcome<string>)
    ensures r.Pass? <==> CheckDirExists(fs, path)
    ensures r.Fail? ==> r.error == MessageOr(message, MissingDirectoryMessage(path))
  {
    if CheckDirExists(fs, path) then Pass
    else Fail(MessageOr(message, MissingDirectoryMessage(path)))
  }

  /** Some `path + extension` exists. */
  predicate ResolvesWithExtension(fs: FileSystem, path: string, extensions: seq<string>) {
    exists i :: 0 <= i < |extensions| && path + extensions[i] in fs
  }

  /**
   * `ensureFileExists`: with extensions, passes exactly when `path + ext`
   * exists for some extension (every extension is tried); without, exactly
   * when `path` exists.
   */
  method EnsureFileExists(fs: FileSystem, path: string, message: Option<string>, extensions: Option<seq<string>>)
    returns (r: Outcome<string>)
    ensures extensions.Some? ==>
      (r.Pass? <==> ResolvesWithExtension(fs, path, extensions.value))
    ensures extensions.None? ==> (r.Pass? <==> path in fs)
    ensures r.Fail? ==> r.error == MessageOr(message, MissingFileMessage(path))
  {
    if extensions.Some? {
      var exts := extensions.value;
      var resolved := false;
      var i := 0;
      while i < |exts|
        invariant 0 <= i <= |exts|
        invariant resolved <==> exists j :: 0 <= j < i && path + exts[j] in fs
      {
        if path + exts[i] in fs {
          resolved := true;
        }
        i := i + 1;
      }
      r := if resolved then Pass else Fail(MessageOr(message, MissingFileMessage(path)));
    } else if path !in fs {
      r := Fail(MessageOr(message, MissingFileMessage(path)));
    } else {
      r := Pass;
    }
  }
}
