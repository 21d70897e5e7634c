/** File uploads as both clients prepare them: the path is resolved, its MIME type detected
    and a file field stored under the form name. */
module Uploads {
  import opened Wrappers
  import opened PhpStrings
  import opened PhpArrays
  import opened Curl

  /** The filesystem as an upload sees it: realpath (None for false), and the MIME type finfo
      detects for a resolved path. */
  datatype FileSystem = FileSystem(realpath: string -> Option<string>, mimeType: string -> string)

  /** The file field for a resolved path: named fileName when one is given, otherwise after
      the resolved file, with the MIME type detected for that path. */
  function UploadedFile(path: string, fileName: Option<string>, fs: FileSystem): (f: PostValue)
    ensures f.File? && f.path == path && f.mime == fs.mimeType(path)
    ensures fileName.Some? && !IsEmpty(fileName.value) ==> f.fileName == fileName.value
    ensures fileName.None? || IsEmpty(fileName.value) ==> f.fileName == Basename(path)
  {
    var name := if fileName.None? || IsEmpty(fileName.value) then Basename(path) else fileName.value;
    File(path, fs.mimeType(path), name)
  }

  /** addUploadFile: the post data after adding a file field, or the error raised. The field
      carries the resolved path and is named after the resolved file unless a file name is
      given; every other field is kept. */
  function WithUploadFile(postData: Arr<string, PostValue>, filePath: string, postName: string,
                          fileName: Option<string>, fs: FileSystem): (r: Result<Arr<string, PostValue>, Error>)
    requires WellFormed(postData)
    ensures r.Success? <==> !IsEmpty(filePath) && !IsEmpty(postName) && fs.realpath(filePath).Some?
                            && !IsEmpty(fs.realpath(filePath).value)
    ensures r.Failure? ==> r.error == (if IsEmpty(filePath) || IsEmpty(postName) then EmptyArgument else FileNotFound)
    ensures r.Success? ==> WellFormed(r.value) && postName in r.value.vals
    ensures r.Success? ==>
              var f := r.value.vals[postName];
              && f.File? && f.path == fs.realpath(filePath).value
              && (fileName.Some? && !IsEmpty(fileName.value) ==> f.fileName == fileName.value)
              && f.mime == fs.mimeType(f.path)
              && (fileName.None? || IsEmpty(fileName.value) ==> f.fileName == Basename(f.path))
    ensures r.Success? ==> forall k | k in postData.vals && k != postName :: k in r.value.vals && r.value.vals[k] == postData.vals[k]
    ensures r.Success? ==> r.value == Put(postData, postName, r.value.vals[postName])
  {
    if IsEmpty(filePath) || IsEmpty(postName) then Failure(EmptyArgument)
    else
      var resolved := fs.realpath(filePath);
      if resolved.None? || IsEmpty(resolved.value) then Failure(FileNotFound)
      else
        var f := UploadedFile(resolved.value, fileName, fs);
        PutFrame(postData, postName, f);
        Success(Put(postData, postName, f))
  }
}
