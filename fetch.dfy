/** The local path an object is downloaded to (`download_s3_object`). */
module Fetch {
  import opened Wrappers
  import Text

  /** The prefix, the bucket and the key, joined by '/'. */
  function LocalPath(prefix: string, bucket: string, key: string): (path: string)
    ensures |path| == |prefix| + |bucket| + |key| + 2
    ensures path[..|prefix| + 1] == prefix + "/"
    ensures path[|path| - |key|..] == key
  {
    prefix + "/" + bucket + "/" + key
  }

  /**
   * Reads bucket and key back from a path under `prefix`: the bucket is the
   * first path segment after the prefix, the key is everything after it.
   */
  function ParseLocalPath(prefix: string, path: string): (r: Option<(string, string)>)
  {
    if |path| <= |prefix| || path[..|prefix| + 1] != prefix + "/" then None
    else
      var rest := path[|prefix| + 1..];
      var i := Text.IndexOf(rest, '/');
      if i == |rest| then None else Some((rest[..i], rest[i + 1..]))
  }

  /**
   * Bucket names hold no '/', so the download path determines the bucket and
   * the key it was built from: two objects never share a local path.
   */
  lemma LocalPathRoundTrip(prefix: string, bucket: string, key: string)
    requires '/' !in bucket
    ensures ParseLocalPath(prefix, LocalPath(prefix, bucket, key)) == Some((bucket, key))
  {
    var path := LocalPath(prefix, bucket, key);
    var rest := path[|prefix| + 1..];
    assert rest == bucket + "/" + key;
    var i := Text.IndexOf(rest, '/');
    assert rest[|bucket|] == '/';
    assert forall j :: 0 <= j < |bucket| ==> rest[j] == bucket[j];
    assert i <= |bucket| ==> rest[..i] == bucket[..i];
    assert i == |bucket|;
    assert rest[..i] == bucket;
    assert rest[i + 1..] == key;
  }

  /** Distinct objects (with bucket names free of '/') are downloaded to distinct paths. */
  lemma LocalPathInjective(prefix: string, b1: string, k1: string, b2: string, k2: string)
    requires '/' !in b1 && '/' !in b2
    requires LocalPath(prefix, b1, k1) == LocalPath(prefix, b2, k2)
    ensures b1 == b2 && k1 == k2
  {
    LocalPathRoundTrip(prefix, b1, k1);
    LocalPathRoundTrip(prefix, b2, k2);
  }
}
