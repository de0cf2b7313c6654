/** The S3 bucket the client uploads images to, reduced to the record of what
    was uploaded. The upload and the pre-signed URL it produces are not
    visible: callers learn only that one upload was recorded and which URL it
    handed back. */
module ObjectStores {

  /** Lifetime of a pre-signed URL, in seconds. */
  const OneYear: nat := 60 * 60 * 24 * 365

  /** One `upload_file` followed by `generate_presigned_url`: the local file,
      the object key it was stored under, the URL's lifetime and the URL. */
  datatype Upload = Upload(localPath: string, key: string, expiresIn: nat, url: string)

  /** The local paths of a run of uploads, in order. */
  function LocalPaths(us: seq<Upload>): (r: seq<string>)
    ensures |r| == |us|
    ensures forall k :: 0 <= k < |us| ==> r[k] == us[k].localPath
  {
    if us == [] then [] else LocalPaths(us[..|us| - 1]) + [us[|us| - 1].localPath]
  }

  /** Recording one more upload adds its path at the end. */
  lemma LocalPathsSnoc(us: seq<Upload>, u: Upload)
    ensures LocalPaths(us + [u]) == LocalPaths(us) + [u.localPath]
  {
    assert (us + [u])[..|us|] == us;
  }

  lemma {:induction false} LocalPathsAppend(a: seq<Upload>, b: seq<Upload>)
    ensures LocalPaths(a + b) == LocalPaths(a) + LocalPaths(b)
  {
    if b != [] {
      var init := b[..|b| - 1];
      assert (a + b)[..|a + b| - 1] == a + init;
      LocalPathsAppend(a, init);
    }
  }

  /** A record extending one that extends `u0` extends `u0`, and what it
      adds to `u0` is what each step added, in order. */
  lemma PrefixOfPrefix(u0: seq<Upload>, u1: seq<Upload>, u2: seq<Upload>)
    requires |u0| <= |u1| && u1[..|u0|] == u0
    requires |u1| <= |u2| && u2[..|u1|] == u1
    ensures u2[..|u0|] == u0
    ensures u2[|u0|..] == u1[|u0|..] + u2[|u1|..]
  {
    assert u2[..|u0|] == u1[..|u0|];
  }

  /** Appending to a record that extends `u0` keeps `u0` as its prefix and
      adds the new upload at the end of what came after it. */
  lemma AppendAfterPrefix(u0: seq<Upload>, u1: seq<Upload>, u: Upload)
    requires |u0| <= |u1| && u1[..|u0|] == u0
    ensures (u1 + [u])[..|u0|] == u0
    ensures (u1 + [u])[|u0|..] == u1[|u0|..] + [u]
  {
    assert (u1 + [u])[..|u0|] == u1[..|u0|];
  }

  class ObjectStore {
    const bucket: string
    /** Every upload performed on this bucket, oldest first. */
    var uploads: seq<Upload>

    constructor (bucket: string)
      ensures this.bucket == bucket && uploads == []
    {
      this.bucket := bucket;
      uploads := [];
    }

    /** Stores the file at `localPath` under `key` and returns a URL valid for
        one year. The URL's text is not specified: the body below is only a
        stand-in for the signing service. */
    method UploadAndPresign(localPath: string, key: string) returns (url: string)
      modifies this
      ensures uploads == old(uploads) + [Upload(localPath, key, OneYear, url)]
    {
      url := "https://" + bucket + "/" + key;
      uploads := uploads + [Upload(localPath, key, OneYear, url)];
    }
  }
}
