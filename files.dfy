/** The parts of a browser `File` that the validators read. */
module Files {

  /** `name` is the file name, `mimeType` the browser's `type` string (possibly
      empty), `size` the length in bytes. */
  datatype File = File(name: string, mimeType: string, size: int)
}
