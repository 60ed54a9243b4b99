/**
 * `lambda_handler`: decode the event, announce the scan, download, refresh
 * the definitions, scan, propagate the verdict to every sink, send the
 * metrics and remove the downloaded file. Every external call is an effect
 * appended to a trace; a call that raises ends the invocation, except the
 * removal of the file, whose OSError is swallowed.
 */
module Handler {
  import opened Wrappers
  import opened Config
  import opened Events
  import Fetch
  import opened Tags
  import opened Metadata
  import opened Sinks
  import opened Effects

  /**
   * What the outside world answers during one invocation: which calls raise,
   * the engine's verdict and output, the object's current content type,
   * metadata and tags, and the three readings of the clock.
   */
  datatype World = World(
    raising: set<Step>,
    verdict: string,
    output: string,
    contentType: string,
    metadata: map<string, string>,
    tags: seq<Tag>,
    metadataTime: string,
    tagTime: string,
    topicTime: string)

  function CallEffects(call: Option<HttpRequest>): seq<Effect>
  {
    if call.None? then [] else [WebhookCall(call.value)]
  }

  function PublishEffects(publication: Option<Publication>): seq<Effect>
  {
    if publication.None? then [] else [PublishTopic(publication.value)]
  }

  function MetadataEffects(cfg: Config, obj: ObjectRef, w: World): seq<Effect>
  {
    if !cfg.updateMetadata then []
    else
      var merged := MergeAvMetadata(w.metadata, cfg.statusKey, cfg.timestampKey, w.verdict, w.metadataTime);
      [CopyObject(CopyRequest(obj.bucket, obj.key, w.contentType, merged, ReplaceDirective))]
  }

  /** The calls of an invocation on a decoded event when none of them raises. */
  function Planned(cfg: Config, obj: ObjectRef, hook: Webhook, w: World): seq<Effect>
  {
    CallEffects(WebhookScanStarted(hook.url, hook.auth)) + FromDownload(cfg, obj, hook, w)
  }

  function FromDownload(cfg: Config, obj: ObjectRef, hook: Webhook, w: World): seq<Effect>
  {
    var path := Fetch.LocalPath(LocalPrefix, obj.bucket, obj.key);
    [DownloadObject(obj.bucket, obj.key, path)]
    + ([UpdateDefinitions(cfg.definitionsBucket, cfg.definitionsPrefix)]
    + ([ScanLocalFile(path)] + FromMetadata(cfg, obj, hook, w)))
  }

  function FromMetadata(cfg: Config, obj: ObjectRef, hook: Webhook, w: World): seq<Effect>
  {
    MetadataEffects(cfg, obj, w) + FromTags(cfg, obj, hook, w)
  }

  function FromTags(cfg: Config, obj: ObjectRef, hook: Webhook, w: World): seq<Effect>
  {
    var tagSet := AvTagged(w.tags, cfg.statusKey, cfg.timestampKey, w.verdict, w.tagTime);
    [GetObjectTagging(obj.bucket, obj.key)]
    + ([PutObjectTagging(obj.bucket, obj.key, tagSet)] + FromPublish(cfg, obj, hook, w))
  }

  function FromPublish(cfg: Config, obj: ObjectRef, hook: Webhook, w: World): seq<Effect>
  {
    PublishEffects(SnsScanResults(cfg.statusTopic, obj.bucket, obj.key, cfg.statusKey, cfg.timestampKey,
                                  w.verdict, w.topicTime))
    + FromReport(cfg, obj, hook, w)
  }

  function FromReport(cfg: Config, obj: ObjectRef, hook: Webhook, w: World): seq<Effect>
  {
    CallEffects(WebhookScanResults(obj.key, w.verdict, w.output, hook.url, hook.auth)) + Closing(cfg, obj, w)
  }

  function Closing(cfg: Config, obj: ObjectRef, w: World): seq<Effect>
  {
    [Metrics(cfg.env, obj.bucket, obj.key, w.verdict)]
    + [RemoveLocalFile(Fetch.LocalPath(LocalPrefix, obj.bucket, obj.key))]
  }

  /**
   * With a webhook the announcement is the first planned call, and the
   * removal of the downloaded file is always the last.
   */
  lemma PlannedBookends(cfg: Config, obj: ObjectRef, hook: Webhook, w: World)
    ensures var plan := Planned(cfg, obj, hook, w);
      && plan != []
      && (hook.url != "" ==> plan[0] == WebhookCall(Post(hook.url, hook.auth)))
      && plan[|plan| - 1] == RemoveLocalFile(Fetch.LocalPath(LocalPrefix, obj.bucket, obj.key))
  {
  }

  /** `download_s3_object`, `clamav.update_defs_from_s3`, `clamav.scan_file`: download, refresh the definitions, scan. */
  method FetchAndScan(cfg: Config, obj: ObjectRef, hook: Webhook, w: World, trace: seq<Effect>, ghost plan: seq<Effect>)
    returns (trace': seq<Effect>, raised: Option<Step>)
    requires Execute(plan, w.raising) == After(trace, Execute(FromDownload(cfg, obj, hook, w), w.raising))
    ensures raised.Some? ==> Execute(plan, w.raising) == Execution(trace', Aborted(raised.value))
    ensures raised.None? ==> Execute(plan, w.raising) == After(trace', Execute(FromMetadata(cfg, obj, hook, w), w.raising))
  {
    var filePath := Fetch.LocalPath(LocalPrefix, obj.bucket, obj.key);
    var fatal: bool;
    ghost var rest := FromDownload(cfg, obj, hook, w);
    ghost var next := [UpdateDefinitions(cfg.definitionsBucket, cfg.definitionsPrefix)]
                      + ([ScanLocalFile(filePath)] + FromMetadata(cfg, obj, hook, w));
    trace', fatal := Attempt(DownloadObject(obj.bucket, obj.key, filePath), w.raising, trace, rest, next, plan);
    if fatal { return trace', Some(Download); }

    rest, next := next, [ScanLocalFile(filePath)] + FromMetadata(cfg, obj, hook, w);
    trace', fatal := Attempt(UpdateDefinitions(cfg.definitionsBucket, cfg.definitionsPrefix), w.raising, trace', rest, next, plan);
    if fatal { return trace', Some(RefreshDefinitions); }

    rest, next := next, FromMetadata(cfg, obj, hook, w);
    trace', fatal := Attempt(ScanLocalFile(filePath), w.raising, trace', rest, next, plan);
    if fatal { return trace', Some(ScanFile); }
    raised := None;
  }

  /** `set_av_metadata`: the object's resource and the copy that rewrites its metadata. */
  method MetadataCopy(cfg: Config, obj: ObjectRef, w: World) returns (copy: CopyRequest)
    requires cfg.updateMetadata
    ensures MetadataEffects(cfg, obj, w) == [CopyObject(copy)]
  {
    var s3Object := new S3Object(obj.bucket, obj.key, w.contentType, w.metadata);
    copy := s3Object.SetAvMetadata(cfg.statusKey, cfg.timestampKey, w.verdict, w.metadataTime);
  }

  /** The call of `set_av_metadata`, when the deployment switches it on. */
  method RecordMetadata(cfg: Config, obj: ObjectRef, hook: Webhook, w: World, trace: seq<Effect>, ghost plan: seq<Effect>)
    returns (trace': seq<Effect>, raised: Option<Step>)
    requires Execute(plan, w.raising) == After(trace, Execute(FromMetadata(cfg, obj, hook, w), w.raising))
    ensures raised.Some? ==> Execute(plan, w.raising) == Execution(trace', Aborted(raised.value))
    ensures raised.None? ==> Execute(plan, w.raising) == After(trace', Execute(FromTags(cfg, obj, hook, w), w.raising))
  {
    var fatal: bool;
    trace', raised := trace, None;
    if cfg.updateMetadata {
      var copy := MetadataCopy(cfg, obj, w);
      trace', fatal := Attempt(CopyObject(copy), w.raising, trace', FromMetadata(cfg, obj, hook, w), FromTags(cfg, obj, hook, w), plan);
      if fatal { raised := Some(CopyMetadata); }
    } else {
      assert FromMetadata(cfg, obj, hook, w) == FromTags(cfg, obj, hook, w);
    }
  }

  /** The call of `set_av_tags`: read the object's tags and write them back with the verdict. */
  method RecordTags(cfg: Config, obj: ObjectRef, hook: Webhook, w: World, trace: seq<Effect>, ghost plan: seq<Effect>)
    returns (trace': seq<Effect>, raised: Option<Step>)
    requires Execute(plan, w.raising) == After(trace, Execute(FromTags(cfg, obj, hook, w), w.raising))
    ensures raised.Some? ==> Execute(plan, w.raising) == Execution(trace', Aborted(raised.value))
    ensures raised.None? ==> Execute(plan, w.raising) == After(trace', Execute(FromPublish(cfg, obj, hook, w), w.raising))
  {
    var fatal: bool;
    ghost var tagSet := AvTagged(w.tags, cfg.statusKey, cfg.timestampKey, w.verdict, w.tagTime);
    ghost var next := [PutObjectTagging(obj.bucket, obj.key, tagSet)] + FromPublish(cfg, obj, hook, w);
    trace', fatal := Attempt(GetObjectTagging(obj.bucket, obj.key), w.raising, trace, FromTags(cfg, obj, hook, w), next, plan);
    if fatal { return trace', Some(ReadTags); }
    var newTags := SetAvTags(w.tags, cfg.statusKey, cfg.timestampKey, w.verdict, w.tagTime);
    trace', fatal := Attempt(PutObjectTagging(obj.bucket, obj.key, newTags), w.raising, trace', next, FromPublish(cfg, obj, hook, w), plan);
    raised := if fatal then Some(WriteTags) else None;
  }

  /** `sns_scan_results` when a topic is configured, then `webhook_scan_results`. */
  method Notify(cfg: Config, obj: ObjectRef, hook: Webhook, w: World, trace: seq<Effect>, ghost plan: seq<Effect>)
    returns (trace': seq<Effect>, raised: Option<Step>)
    requires Execute(plan, w.raising) == After(trace, Execute(FromPublish(cfg, obj, hook, w), w.raising))
    ensures raised.Some? ==> Execute(plan, w.raising) == Execution(trace', Aborted(raised.value))
    ensures raised.None? ==> Execute(plan, w.raising) == After(trace', Execute(Closing(cfg, obj, w), w.raising))
  {
    var fatal: bool;
    trace', raised := trace, None;
    var publication := SnsScanResults(cfg.statusTopic, obj.bucket, obj.key, cfg.statusKey, cfg.timestampKey,
                                      w.verdict, w.topicTime);
    if publication.Some? {
      trace', fatal := Attempt(PublishTopic(publication.value), w.raising, trace', FromPublish(cfg, obj, hook, w), FromReport(cfg, obj, hook, w), plan);
      if fatal { return trace', Some(PublishStatus); }
    } else {
      assert FromPublish(cfg, obj, hook, w) == FromReport(cfg, obj, hook, w);
    }

    var reported := WebhookScanResults(obj.key, w.verdict, w.output, hook.url, hook.auth);
    if reported.Some? {
      trace', fatal := Attempt(WebhookCall(reported.value), w.raising, trace', FromReport(cfg, obj, hook, w), Closing(cfg, obj, w), plan);
      if fatal { raised := Some(NotifyResult); }
    } else {
      assert FromReport(cfg, obj, hook, w) == Closing(cfg, obj, w);
    }
  }

  /** `metrics.send`, then the removal of the downloaded file, whose `OSError` is swallowed. */
  method Finish(cfg: Config, obj: ObjectRef, w: World, trace: seq<Effect>, ghost plan: seq<Effect>)
    returns (trace': seq<Effect>, outcome: Outcome)
    requires Execute(plan, w.raising) == After(trace, Execute(Closing(cfg, obj, w), w.raising))
    ensures Execute(plan, w.raising) == Execution(trace', outcome)
  {
    var fatal: bool;
    var filePath := Fetch.LocalPath(LocalPrefix, obj.bucket, obj.key);
    trace', fatal := Attempt(Metrics(cfg.env, obj.bucket, obj.key, w.verdict), w.raising, trace,
                             Closing(cfg, obj, w), [RemoveLocalFile(filePath)], plan);
    if fatal { return trace', Aborted(SendMetrics); }
    // An OSError from the removal is swallowed: the removal is never fatal.
    trace', fatal := Attempt(RemoveLocalFile(filePath), w.raising, trace', [RemoveLocalFile(filePath)], [], plan);
    assert !fatal;
    outcome := Completed;
  }

  /** The verdict on the object itself: `set_av_metadata`, then `set_av_tags`. */
  method RecordVerdict(cfg: Config, obj: ObjectRef, hook: Webhook, w: World, trace: seq<Effect>, ghost plan: seq<Effect>)
    returns (trace': seq<Effect>, raised: Option<Step>)
    requires Execute(plan, w.raising) == After(trace, Execute(FromMetadata(cfg, obj, hook, w), w.raising))
    ensures raised.Some? ==> Execute(plan, w.raising) == Execution(trace', Aborted(raised.value))
    ensures raised.None? ==> Execute(plan, w.raising) == After(trace', Execute(FromPublish(cfg, obj, hook, w), w.raising))
  {
    trace', raised := RecordMetadata(cfg, obj, hook, w, trace, plan);
    if raised.None? {
      trace', raised := RecordTags(cfg, obj, hook, w, trace', plan);
    }
  }

  /** The verdict's notifications, the metrics and the cleanup. */
  method Report(cfg: Config, obj: ObjectRef, hook: Webhook, w: World, trace: seq<Effect>, ghost plan: seq<Effect>)
    returns (trace': seq<Effect>, outcome: Outcome)
    requires Execute(plan, w.raising) == After(trace, Execute(FromPublish(cfg, obj, hook, w), w.raising))
    ensures Execute(plan, w.raising) == Execution(trace', outcome)
  {
    var raised: Option<Step>;
    trace', raised := Notify(cfg, obj, hook, w, trace, plan);
    if raised.Some? { return trace', Aborted(raised.value); }
    trace', outcome := Finish(cfg, obj, w, trace', plan);
  }

  /** The body of `lambda_handler` after decoding: the calls made for a decoded event. */
  method Run(cfg: Config, obj: ObjectRef, hook: Webhook, w: World)
    returns (trace: seq<Effect>, outcome: Outcome)
    ensures Execute(Planned(cfg, obj, hook, w), w.raising) == Execution(trace, outcome)
  {
    ghost var plan := Planned(cfg, obj, hook, w);
    var fatal: bool;
    var raised: Option<Step>;
    trace := [];
    assert After([], Execute(plan, w.raising)).trace == [] + Execute(plan, w.raising).trace;

    var started := WebhookScanStarted(hook.url, hook.auth);
    if started.Some? {
      trace, fatal := Attempt(WebhookCall(started.value), w.raising, trace, plan, FromDownload(cfg, obj, hook, w), plan);
      if fatal { return trace, Aborted(NotifyStart); }
    } else {
      assert plan == FromDownload(cfg, obj, hook, w);
    }

    trace, raised := FetchAndScan(cfg, obj, hook, w, trace, plan);
    if raised.Some? { return trace, Aborted(raised.value); }
    trace, raised := RecordVerdict(cfg, obj, hook, w, trace, plan);
    if raised.Some? { return trace, Aborted(raised.value); }
    trace, outcome := Report(cfg, obj, hook, w, trace, plan);
  }
}
