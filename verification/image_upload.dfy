/** The object path an image is stored under
    (components/SupabaseImageUpload.tsx). The upload itself is an input:
    it either fails with an error or succeeds; the public URL is whatever
    the storage service gives for the looked-up object. */
module ImageUpload {
  import opened Wrappers

  /** `uri.split("/").pop()`: the part after the last `/`, or the whole URI
      when it has none. It is the longest suffix without a `/`. */
  function FileName(uri: string): (name: string)
    ensures '/' !in name
    ensures |name| <= |uri| && name == uri[|uri| - |name|..]
    ensures |name| == |uri| || uri[|uri| - |name| - 1] == '/'
  {
    if uri == [] || uri[|uri| - 1] == '/' then []
    else FileName(uri[..|uri| - 1]) + [uri[|uri| - 1]]
  }

  /** A URI without a `/` is its own file name. */
  lemma FileNameWithoutSlash(uri: string)
    requires '/' !in uri
    ensures FileName(uri) == uri
  {
  }

  /** The file name of `dir/base` is `base`, whatever the directory. */
  lemma {:induction false} FileNameOfPath(dir: string, base: string)
    requires '/' !in base
    ensures FileName(dir + "/" + base) == base
  {
    var uri := dir + "/" + base;
    if base != [] {
      var last, init := base[|base| - 1], base[..|base| - 1];
      assert last in base;
      assert uri[..|uri| - 1] == dir + "/" + init;
      assert '/' !in init by {
        forall c | c in init ensures c != '/' {
          assert c in base;
        }
      }
      FileNameOfPath(dir, init);
      assert base == init + [last];
    }
  }

  /** `images/<file name>`. */
  function ObjectPath(uri: string): (path: string)
    ensures |path| >= 7 && path[..7] == "images/" && path[7..] == FileName(uri)
  {
    "images/" + FileName(uri)
  }

  /** A bucket and a path inside it. */
  datatype StorageRef = StorageRef(bucket: string, path: string)

  /** Where uploadToSupabase writes the image. */
  function UploadTarget(uri: string): (target: StorageRef)
    ensures target.bucket == "PostImages"
    ensures target.path == ObjectPath(uri) && target.path[7..] == FileName(uri)
  {
    StorageRef("PostImages", ObjectPath(uri))
  }

  /** uploadToSupabase: a failed upload is rethrown and yields no URL;
      otherwise the result is the object whose public URL is returned. It
      has the upload's path but is looked up in bucket "images", not in
      "PostImages" where it was written. */
  function UploadToSupabase(uri: string, upload: Outcome<string>): (r: Result<StorageRef, string>)
    ensures r.Failure? <==> upload.Fail?
    ensures r.Failure? ==> r.error == upload.error
    ensures r.Success? ==> r.value.path == UploadTarget(uri).path
    ensures r.Success? ==> r.value.bucket == "images" && r.value.bucket != UploadTarget(uri).bucket
  {
    match upload
    case Fail(e) => Failure(e)
    case Pass => Success(StorageRef("images", ObjectPath(uri)))
  }
}
