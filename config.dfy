/**
 * The process-wide settings the handler reads: the tag and metadata key
 * names, the definitions location and the status topic come from the
 * `common` module, the environment tag and the metadata switch from the
 * process environment.
 */
module Config {
  import opened Wrappers

  datatype Config = Config(
    statusKey: string,          // AV_STATUS_METADATA
    timestampKey: string,       // AV_TIMESTAMP_METADATA
    definitionsBucket: string,  // AV_DEFINITION_S3_BUCKET
    definitionsPrefix: string,  // AV_DEFINITION_S3_PREFIX
    statusTopic: Option<string>,  // AV_STATUS_SNS_ARN; None disables the topic sink
    updateMetadata: bool,       // "AV_UPDATE_METADATA" is set in the environment
    env: string)                // ENV, "" when unset
  {
    /** The status and timestamp keys name two different tags. */
    predicate Valid()
    {
      statusKey != timestampKey
    }
  }

  /** The directory under which objects are downloaded. */
  const LocalPrefix: string := "/tmp"
}
