/** The part of the local filesystem the request builder looks at: directory
    listings and whether a path exists, as a value instead of live queries. */
module FileSystems {

  /** One entry of a directory listing: its file name (`Path.name`) and its
      full path (`str(path)`). */
  datatype Entry = Entry(name: string, path: string)

  /** The listing of every directory, in iteration order, and the set of
      paths that exist but are not directories. */
  datatype FileSystem = FileSystem(dirs: map<string, seq<Entry>>, files: set<string>)

  /** The two exceptions the builder can raise on its input path. */
  datatype IoError = FileNotFound(path: string) | NotADirectory(path: string)

  datatype Result<T> = Ok(value: T) | Err(error: IoError)

  /** `Path.exists()`. */
  predicate Exists(fs: FileSystem, p: string) {
    p in fs.dirs || p in fs.files
  }

  /** `Path.is_dir()`. */
  predicate IsDir(fs: FileSystem, p: string) {
    p in fs.dirs
  }

  /** `Path.iterdir()`: the listing of a directory; a regular file raises
      NotADirectoryError and a missing path FileNotFoundError. */
  function IterDir(fs: FileSystem, p: string): (r: Result<seq<Entry>>)
    ensures r.Ok? <==> IsDir(fs, p)
    ensures r.Ok? ==> r.value == fs.dirs[p]
    ensures !Exists(fs, p) ==> r == Err(FileNotFound(p))
    ensures Exists(fs, p) && !IsDir(fs, p) ==> r == Err(NotADirectory(p))
  {
    if p in fs.dirs then Ok(fs.dirs[p])
    else if p in fs.files then Err(NotADirectory(p))
    else Err(FileNotFound(p))
  }
}
