/** The files written by the pipeline, as a map from path to text content. */
module Storage {

  class Disk {
    var files: map<string, string>

    constructor ()
      ensures files == map[]
    {
      files := map[];
    }

    /** `open(path, 'w').write(content)`: creates or overwrites one file, touches no other. */
    method Write(path: string, content: string)
      modifies this
      ensures files == old(files)[path := content]
    {
      files := files[path := content];
    }
  }
}
