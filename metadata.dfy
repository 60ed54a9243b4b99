/** The in-place update of an object's metadata after a scan (`set_av_metadata`). */
module Metadata {

  /** The arguments of the copy-in-place call that replaces the object's metadata. */
  datatype CopyRequest = CopyRequest(
    bucket: string,
    key: string,
    contentType: string,
    metadata: map<string, string>,
    directive: string)

  const ReplaceDirective: string := "REPLACE"

  /**
   * The metadata after the merge: the status key maps to the verdict, the
   * timestamp key to the time, and every other key keeps its value.
   */
  function MergeAvMetadata(metadata: map<string, string>, statusKey: string, timestampKey: string,
                           result: string, timestamp: string): (merged: map<string, string>)
    ensures merged.Keys == metadata.Keys + {statusKey, timestampKey}
    ensures merged[timestampKey] == timestamp
    ensures statusKey != timestampKey ==> merged[statusKey] == result
    ensures forall k :: k in metadata && k != statusKey && k != timestampKey ==> merged[k] == metadata[k]
  {
    metadata[statusKey := result][timestampKey := timestamp]
  }

  /** Merging the same verdict and time twice gives what merging once gives. */
  lemma MergeAvMetadataIdempotent(metadata: map<string, string>, statusKey: string, timestampKey: string,
                                  result: string, timestamp: string)
    ensures MergeAvMetadata(MergeAvMetadata(metadata, statusKey, timestampKey, result, timestamp),
                            statusKey, timestampKey, result, timestamp)
         == MergeAvMetadata(metadata, statusKey, timestampKey, result, timestamp)
  {
    var once := MergeAvMetadata(metadata, statusKey, timestampKey, result, timestamp);
    var twice := MergeAvMetadata(once, statusKey, timestampKey, result, timestamp);
    assert forall k :: k in twice ==> twice[k] == once[k];
  }

  /** The S3 object resource: its locator and the attributes loaded from the store. */
  class S3Object {
    const bucket: string
    const key: string
    var contentType: string
    var metadata: map<string, string>

    constructor (bucket: string, key: string, contentType: string, metadata: map<string, string>)
      ensures this.bucket == bucket && this.key == key
      ensures this.contentType == contentType && this.metadata == metadata
    {
      this.bucket := bucket;
      this.key := key;
      this.contentType := contentType;
      this.metadata := metadata;
    }

    /**
     * `set_av_metadata`: writes the two keys into this object's metadata
     * dictionary and returns the copy request that replaces the stored
     * metadata with it, keeping the original content type.
     */
    method SetAvMetadata(statusKey: string, timestampKey: string, result: string, timestamp: string)
      returns (copy: CopyRequest)
      modifies this`metadata
      ensures metadata == MergeAvMetadata(old(metadata), statusKey, timestampKey, result, timestamp)
      ensures copy == CopyRequest(bucket, key, old(contentType), metadata, ReplaceDirective)
    {
      var contentType := this.contentType;
      metadata := metadata[statusKey := result];
      metadata := metadata[timestampKey := timestamp];
      copy := CopyRequest(bucket, key, contentType, metadata, ReplaceDirective);
    }
  }
}
