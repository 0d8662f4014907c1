/** The file system, seen only through the calls the core makes on it
    (os.Stat, ioutil.ReadFile, path.Join). It is an oracle: a snapshot of
    which paths are regular files (with their contents) and which are
    directories. */
module Host {
  import opened Common

  /** A snapshot of the disk: the regular files with their contents, the
      directories, the other paths that exist (devices, named pipes,
      sockets), and the files that exist but cannot be read. A Go string
      and a []byte carry the same bytes, so contents are kept as strings. */
  datatype Disk = Disk(files: map<string, string>, dirs: set<string>, special: set<string>, unreadable: set<string>)

  datatype FsError =
    | NotFound(path: string)
    | NotAFile(path: string)
    | NotADir(path: string)
    | IsADirectory(path: string)
    | PermissionDenied(path: string)

  /** isFile: success exactly for a regular file; "not a file" for any
      other path that exists (os.Stat succeeds, IsRegular fails); "not
      found" when os.Stat fails. */
  function IsFile(disk: Disk, path: string): (r: Option<FsError>)
    ensures r.None? <==> path in disk.files
    ensures r == Some(NotAFile(path)) <==> path !in disk.files && (path in disk.dirs || path in disk.special)
    ensures r == Some(NotFound(path)) <==> path !in disk.files && path !in disk.dirs && path !in disk.special
  {
    if path in disk.files then None
    else if path in disk.dirs || path in disk.special then Some(NotAFile(path))
    else Some(NotFound(path))
  }

  /** isDir: success exactly for a directory, "not a directory" for any
      other path that exists, "not found" otherwise. */
  function IsDir(disk: Disk, path: string): (r: Option<FsError>)
    ensures r.None? <==> path in disk.dirs
    ensures r == Some(NotADir(path)) <==> path !in disk.dirs && (path in disk.files || path in disk.special)
    ensures r == Some(NotFound(path)) <==> path !in disk.dirs && path !in disk.files && path !in disk.special
  {
    if path in disk.dirs then None
    else if path in disk.files || path in disk.special then Some(NotADir(path))
    else Some(NotFound(path))
  }

  /** ioutil.ReadFile: the contents of a regular file, an error otherwise. */
  function ReadFile(disk: Disk, path: string): (r: Result<string, FsError>)
    ensures r.Success? <==> path in disk.files && path !in disk.unreadable
    ensures r.Success? ==> r.value == disk.files[path]
  {
    if path in disk.files && path !in disk.unreadable then Success(disk.files[path])
    else if path in disk.files then Failure(PermissionDenied(path))
    else if path in disk.dirs then Failure(IsADirectory(path))
    else if path in disk.special then Failure(NotAFile(path))
    else Failure(NotFound(path))
  }

  /** path.Join of a directory and a name, without path.Clean's lexical
      normalisation: an empty component is dropped. */
  function JoinPath(dir: string, name: string): string
  {
    if dir == "" then name
    else if name == "" then dir
    else dir + "/" + name
  }
}
