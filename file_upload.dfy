/**
 * The file picker (frontend/src/components/FileUpload.tsx): the 10 MiB gate
 * in front of `onFileSelect`, and the reset of the input element's value.
 */
module FileUpload {
  import opened Wrappers
  import FileParser

  const MaxSize: nat := 10 * 1024 * 1024
  const SizeAlert := "File size exceeds 10MB limit. Please choose a smaller file."

  /** The file handed to `onFileSelect`: the first chosen one, when it is within the limit. */
  function Gate(files: seq<FileParser.FileInfo>): (r: Option<FileParser.FileInfo>)
    ensures r.Some? <==> |files| > 0 && files[0].size <= MaxSize
    ensures r.Some? ==> r.value == files[0]
  {
    if |files| == 0 then None
    else if files[0].size > MaxSize then None
    else Some(files[0])
  }

  /** The limit is inclusive: exactly 10 MiB passes, one byte more does not. */
  lemma GateBoundary(name: string, mimeType: string)
    ensures Gate([FileParser.FileInfo(name, mimeType, 10485760)]).Some?
    ensures Gate([FileParser.FileInfo(name, mimeType, 10485761)]).None?
  {
  }

  class Picker {
    /** `fileInputRef.current.value` */
    var value: string

    constructor ()
      ensures value == ""
    {
      value := "";
    }

    /**
     * `handleFileChange`: nothing when no file was chosen; otherwise an alert
     * for an oversized file or the file passed on, and the value reset.
     */
    method HandleFileChange(files: seq<FileParser.FileInfo>) returns (selected: Option<FileParser.FileInfo>, alert: Option<string>)
      modifies this
      ensures selected == Gate(files)
      ensures |files| == 0 ==> alert == None && value == old(value)
      ensures |files| > 0 ==> value == ""
      ensures alert == (if |files| > 0 && files[0].size > MaxSize then Some(SizeAlert) else None)
    {
      if |files| == 0 {
        return None, None;
      }
      var file := files[0];
      if file.size > MaxSize {
        value := "";
        return None, Some(SizeAlert);
      }
      selected, alert := Some(file), None;
      value := "";
    }
  }
}
