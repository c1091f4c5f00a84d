/** The local files a run reads and writes, each path holding its text. */
module Files {

  type Path = string

  class FileSystem {
    var files: map<Path, string>

    constructor (files: map<Path, string>)
      ensures this.files == files
    {
      this.files := files;
    }

    /** `open(path, 'w')`: creates the file, or empties it when it exists. */
    method Create(path: Path)
      modifies this
      ensures files == old(files)[path := []]
    {
      files := files[path := []];
    }

    /** `f.write(text)` on a file opened for writing. */
    method Write(path: Path, text: string)
      requires path in files
      modifies this
      ensures files == old(files)[path := old(files)[path] + text]
    {
      files := files[path := files[path] + text];
    }
  }
}
