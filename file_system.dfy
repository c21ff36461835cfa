/** The file system, as a map from path to file contents, and the two operations of utils.FileSystem. */
module Utils {
  import opened Primitives
  import opened Wrappers

  type Path = string

  /** Every file that exists, by path. */
  type Files = map<Path, Bytes>

  /** readBytesFromFile: the whole content of the file, or FileNotFound when there is none. */
  function ReadBytesFromFile(files: Files, filename: Path): (r: Result<Bytes>)
    ensures r.Success? <==> filename in files
    ensures r.Success? ==> r.value == files[filename]
    ensures r.Failure? ==> r.error == FileNotFound(filename)
  {
    if filename in files then Success(files[filename]) else Failure(FileNotFound(filename))
  }

  /** saveBytesInFile: the file at path is created or replaced by exactly bytes; nothing else changes. */
  function SaveBytesInFile(files: Files, bytes: Bytes, path: Path): (r: Files)
    ensures r.Keys == files.Keys + {path}
    ensures r[path] == bytes
    ensures forall q :: q in files && q != path ==> r[q] == files[q]
  {
    files[path := bytes]
  }
}
