/**
 * The payloads and guards of the notification sinks: the status topic
 * (`sns_scan_results`) and the two webhook calls (`webhook_scan_started`,
 * `webhook_scan_results`).
 */
module Sinks {
  import opened Wrappers
  import Text

  /** A publication on the status topic; `message` is the JSON object before it is serialised. */
  datatype Publication = Publication(targetArn: string, message: map<string, string>)

  /** The JSON body of the scan-result webhook call. */
  datatype ScanReport = ScanReport(filename: string, isInfected: bool, status: string, result: string)

  /** A webhook call: the empty-bodied POST at start and the PATCH with the report. */
  datatype HttpRequest =
    | Post(url: string, auth: string)
    | Patch(url: string, report: ScanReport, auth: string)

  const Infected: string := "INFECTED"
  const InfectedPrefix: string := "INFECTED: "
  const CleanDetails: string := "clean"
  const SuccessStatus: string := "success"

  /**
   * The message published on the status topic: bucket, key, verdict and
   * time, the last two under the configured key names.
   */
  function TopicMessage(bucket: string, key: string, statusKey: string, timestampKey: string,
                        result: string, timestamp: string): (m: map<string, string>)
    ensures m.Keys == {"bucket", "key", statusKey, timestampKey}
    ensures m[timestampKey] == timestamp
    ensures statusKey != timestampKey ==> m[statusKey] == result
    ensures "bucket" !in {statusKey, timestampKey} ==> m["bucket"] == bucket
    ensures "key" !in {statusKey, timestampKey} ==> m["key"] == key
  {
    map["bucket" := bucket, "key" := key][statusKey := result][timestampKey := timestamp]
  }

  /** `sns_scan_results`: nothing is published when no topic is configured. */
  function SnsScanResults(topic: Option<string>, bucket: string, key: string, statusKey: string,
                          timestampKey: string, result: string, timestamp: string): (p: Option<Publication>)
    ensures p.None? <==> topic.None?
    ensures p.Some? ==> p.value.targetArn == topic.value
    ensures p.Some? ==> p.value.message == TopicMessage(bucket, key, statusKey, timestampKey, result, timestamp)
  {
    if topic.None? then None
    else Some(Publication(topic.value, TopicMessage(bucket, key, statusKey, timestampKey, result, timestamp)))
  }

  /** `webhook_scan_started`: an empty-bodied POST carrying the credential, skipped for an empty URL. */
  function WebhookScanStarted(webhook: string, auth: string): (call: Option<HttpRequest>)
    ensures call.None? <==> webhook == ""
    ensures call.Some? ==> call.value.Post? && call.value.url == webhook && call.value.auth == auth
  {
    if webhook == "" then None else Some(Post(webhook, auth))
  }

  /** The report on a verdict for the object with key `key`. */
  function ScanResultReport(key: string, result: string, output: string): (report: ScanReport)
    ensures report.isInfected <==> result == Infected
    ensures report.status == SuccessStatus
    ensures report.filename == Text.Basename(key)
    ensures report.result == if result == Infected then InfectedPrefix + output else CleanDetails
  {
    var isInfected := result == Infected;
    var details := if isInfected then InfectedPrefix + output else CleanDetails;
    ScanReport(Text.Basename(key), isInfected, SuccessStatus, details)
  }

  /**
   * A receiver can read the verdict back from the report: the result text is
   * "clean" exactly when the object is not infected, and otherwise carries
   * the engine's output after the prefix. The file name is the last segment
   * of the key.
   */
  lemma ReportDecodes(key: string, result: string, output: string)
    ensures var report := ScanResultReport(key, result, output);
      && (report.isInfected <==> report.result != CleanDetails)
      && (report.isInfected ==>
            |report.result| >= |InfectedPrefix|
            && report.result[..|InfectedPrefix|] == InfectedPrefix
            && report.result[|InfectedPrefix|..] == output)
      && '/' !in report.filename
      && |report.filename| <= |key|
      && Text.Basename(key) == key[|key| - |report.filename|..]
  {
    var report := ScanResultReport(key, result, output);
    Text.BasenameIsLastSegment(key);
    if report.isInfected {
      assert report.result[0] == 'I' != CleanDetails[0];
    }
  }

  /** `webhook_scan_results`: the PATCH with the report, skipped for an empty URL. */
  function WebhookScanResults(key: string, result: string, output: string, webhook: string, auth: string)
    : (call: Option<HttpRequest>)
    ensures call.None? <==> webhook == ""
    ensures call.Some? ==> call.value == Patch(webhook, ScanResultReport(key, result, output), auth)
  {
    if webhook == "" then None else Some(Patch(webhook, ScanResultReport(key, result, output), auth))
  }
}
