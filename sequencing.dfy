/**
 * What every invocation of the handler does, stated about the planned calls
 * and about the calls an invocation actually makes: the fixed order of the
 * steps, the optional sinks, the one verdict every sink receives, and the
 * removal of the downloaded file, attempted only after everything else succeeded.
 */
module Sequencing {
  import opened Config
  import opened Events
  import Fetch
  import opened Tags
  import opened Sinks
  import opened Effects
  import opened Handler

  /** The kinds of the calls in `trace`, in order. */
  function Steps(trace: seq<Effect>): (steps: seq<Step>)
    ensures |steps| == |trace|
  {
    if trace == [] then [] else [StepOf(trace[0])] + Steps(trace[1..])
  }

  lemma StepsCons(e: Effect, rest: seq<Effect>)
    ensures Steps([e] + rest) == [StepOf(e)] + Steps(rest)
  {
    assert ([e] + rest)[1..] == rest;
  }

  lemma {:induction false} StepsIndex(trace: seq<Effect>, i: nat)
    requires i < |trace|
    ensures Steps(trace)[i] == StepOf(trace[i])
    decreases i
  {
    if i > 0 {
      StepsIndex(trace[1..], i - 1);
    }
  }

  /** The steps every invocation on a decoded event plans before the removal of the file. */
  function StepsBeforeRemoval(cfg: Config): seq<Step>
  {
    [NotifyStart, Download, RefreshDefinitions, ScanFile]
    + (if cfg.updateMetadata then [CopyMetadata] else [])
    + [ReadTags, WriteTags]
    + (if cfg.statusTopic.Some? then [PublishStatus] else [])
    + [NotifyResult, SendMetrics]
  }

  /**
   * The order the handler promises: announce, download, update the
   * definitions, scan, then the metadata copy when it is switched on, the
   * tags, the status topic when one is configured, the result webhook, the
   * metrics and, last, the removal of the file.
   */
  function StepOrder(cfg: Config): seq<Step>
  {
    StepsBeforeRemoval(cfg) + [RemoveFile]
  }

  lemma StepsSingle(e: Effect)
    ensures Steps([e]) == [StepOf(e)]
  {
    assert [e][1..] == [];
  }

  /** `StepOrder`, nested the way the handler's plan is built. */
  lemma StepOrderUnfolds(cfg: Config)
    ensures StepOrder(cfg)
         == [NotifyStart] + ([Download] + ([RefreshDefinitions] + ([ScanFile]
            + ((if cfg.updateMetadata then [CopyMetadata] else [])
            + ([ReadTags] + ([WriteTags]
            + ((if cfg.statusTopic.Some? then [PublishStatus] else [])
            + ([NotifyResult] + ([SendMetrics] + [RemoveFile])))))))))
  {
  }

  lemma StepsOfReporting(cfg: Config, obj: ObjectRef, hook: Webhook, w: World)
    requires hook.url != ""
    ensures Steps(FromPublish(cfg, obj, hook, w))
         == (if cfg.statusTopic.Some? then [PublishStatus] else [])
            + ([NotifyResult] + ([SendMetrics] + [RemoveFile]))
  {
    var path := Fetch.LocalPath(LocalPrefix, obj.bucket, obj.key);
    StepsSingle(RemoveLocalFile(path));
    StepsCons(Metrics(cfg.env, obj.bucket, obj.key, w.verdict), [RemoveLocalFile(path)]);
    StepsCons(WebhookCall(WebhookScanResults(obj.key, w.verdict, w.output, hook.url, hook.auth).value),
              Closing(cfg, obj, w));
    var publication := SnsScanResults(cfg.statusTopic, obj.bucket, obj.key, cfg.statusKey, cfg.timestampKey,
                                      w.verdict, w.topicTime);
    var closing := [NotifyResult] + ([SendMetrics] + [RemoveFile]);
    if publication.Some? {
      StepsCons(PublishTopic(publication.value), FromReport(cfg, obj, hook, w));
    } else {
      assert FromPublish(cfg, obj, hook, w) == FromReport(cfg, obj, hook, w);
      assert [] + closing == closing;
    }
  }

  lemma StepsOfTagging(cfg: Config, obj: ObjectRef, hook: Webhook, w: World)
    ensures Steps(FromTags(cfg, obj, hook, w)) == [ReadTags] + ([WriteTags] + Steps(FromPublish(cfg, obj, hook, w)))
  {
    var tagSet := AvTagged(w.tags, cfg.statusKey, cfg.timestampKey, w.verdict, w.tagTime);
    var put := PutObjectTagging(obj.bucket, obj.key, tagSet);
    StepsCons(put, FromPublish(cfg, obj, hook, w));
    StepsCons(GetObjectTagging(obj.bucket, obj.key), [put] + FromPublish(cfg, obj, hook, w));
  }

  lemma StepsOfRecording(cfg: Config, obj: ObjectRef, hook: Webhook, w: World)
    ensures Steps(FromMetadata(cfg, obj, hook, w))
         == (if cfg.updateMetadata then [CopyMetadata] else []) + Steps(FromTags(cfg, obj, hook, w))
  {
    if cfg.updateMetadata {
      StepsCons(MetadataEffects(cfg, obj, w)[0], FromTags(cfg, obj, hook, w));
    } else {
      assert FromMetadata(cfg, obj, hook, w) == FromTags(cfg, obj, hook, w);
      assert [] + Steps(FromTags(cfg, obj, hook, w)) == Steps(FromTags(cfg, obj, hook, w));
    }
  }

  /**
   * With a webhook (every decoded event has one) the planned calls are the
   * steps of `StepOrder`, in that order: both webhook calls always happen,
   * the metadata copy exactly when it is switched on and the status topic
   * exactly when one is configured.
   */
  lemma PlannedSteps(cfg: Config, obj: ObjectRef, hook: Webhook, w: World)
    requires hook.url != ""
    ensures Steps(Planned(cfg, obj, hook, w)) == StepOrder(cfg)
  {
    StepsOfReporting(cfg, obj, hook, w);
    StepsOfTagging(cfg, obj, hook, w);
    StepsOfRecording(cfg, obj, hook, w);
    var path := Fetch.LocalPath(LocalPrefix, obj.bucket, obj.key);
    var fromMetadata := FromMetadata(cfg, obj, hook, w);
    StepsCons(ScanLocalFile(path), fromMetadata);
    StepsCons(UpdateDefinitions(cfg.definitionsBucket, cfg.definitionsPrefix), [ScanLocalFile(path)] + fromMetadata);
    StepsCons(DownloadObject(obj.bucket, obj.key, path),
              [UpdateDefinitions(cfg.definitionsBucket, cfg.definitionsPrefix)] + ([ScanLocalFile(path)] + fromMetadata));
    StepsCons(WebhookCall(WebhookScanStarted(hook.url, hook.auth).value), FromDownload(cfg, obj, hook, w));
    StepOrderUnfolds(cfg);
  }

  /** The removal of the file is the last step of `StepOrder`, and no other step is one. */
  lemma RemovalIsLast(cfg: Config)
    ensures var order := StepOrder(cfg);
      && order[|order| - 1] == RemoveFile
      && forall i | 0 <= i < |order| - 1 :: order[i] != RemoveFile
  {
    var body := StepsBeforeRemoval(cfg);
    assert RemoveFile !in body;
    forall i | 0 <= i < |body| ensures StepOrder(cfg)[i] != RemoveFile {
      assert StepOrder(cfg)[i] == body[i];
    }
  }

  lemma {:induction false} StepsPrefix(a: seq<Effect>, b: seq<Effect>)
    requires a <= b
    ensures Steps(a) <= Steps(b)
    decreases |a|
  {
    if a != [] {
      assert a[1..] <= b[1..];
      StepsPrefix(a[1..], b[1..]);
    }
  }

  /**
   * The calls an invocation on a decoded event makes are the promised steps,
   * in the promised order, up to the first one that raises.
   */
  lemma RunFollowsStepOrder(cfg: Config, obj: ObjectRef, hook: Webhook, w: World)
    requires hook.url != ""
    ensures Steps(Execute(Planned(cfg, obj, hook, w), w.raising).trace) <= StepOrder(cfg)
  {
    var plan := Planned(cfg, obj, hook, w);
    ExecuteRunsUntilRaise(plan, w.raising);
    StepsPrefix(Execute(plan, w.raising).trace, plan);
    PlannedSteps(cfg, obj, hook, w);
  }

  /**
   * The removal of the downloaded file is attempted exactly when the run
   * completes, that is when no earlier call raised: a call that raises skips
   * the removal. (A removal that itself raises still completes the run.)
   */
  lemma RemovalOnlyOnSuccess(cfg: Config, obj: ObjectRef, hook: Webhook, w: World)
    requires hook.url != ""
    ensures var run := Execute(Planned(cfg, obj, hook, w), w.raising);
      RemoveFile in Steps(run.trace) <==> run.outcome == Completed
  {
    var plan := Planned(cfg, obj, hook, w);
    var run := Execute(plan, w.raising);
    ExecuteRunsUntilRaise(plan, w.raising);
    PlannedSteps(cfg, obj, hook, w);
    StepsPrefix(run.trace, plan);
    RemovalIsLast(cfg);
    var order := StepOrder(cfg);
    var steps := Steps(run.trace);
    if run.outcome.Completed? {
      assert steps[|steps| - 1] == RemoveFile;
    } else {
      StepsIndex(run.trace, |run.trace| - 1);
      forall i | 0 <= i < |steps| ensures steps[i] != RemoveFile {
        if i < |steps| - 1 {
          assert steps[i] == order[i];
        }
      }
    }
  }

  /**
   * An `OSError` from the removal is swallowed: when the removal is the only
   * call that raises, the invocation completes and makes every step of
   * `StepOrder`.
   */
  lemma RemovalFailureSwallowed(cfg: Config, obj: ObjectRef, hook: Webhook, w: World)
    requires hook.url != "" && w.raising <= {RemoveFile}
    ensures var run := Execute(Planned(cfg, obj, hook, w), w.raising);
      run.outcome == Completed && Steps(run.trace) == StepOrder(cfg)
  {
    RemovalNeverFatal(Planned(cfg, obj, hook, w), w.raising);
    PlannedSteps(cfg, obj, hook, w);
  }

  /** The verdict as a sink receives it, for each kind of call that reports one. */
  predicate Carries(e: Effect, statusKey: string, verdict: string)
  {
    match e
    case CopyObject(copy) => statusKey in copy.metadata && copy.metadata[statusKey] == verdict
    case PutObjectTagging(_, _, tagSet) => Tag(statusKey, verdict) in tagSet && CountKey(tagSet, statusKey) == 1
    case PublishTopic(publication) =>
      statusKey in publication.message && publication.message[statusKey] == verdict
    case WebhookCall(request) => request.Patch? ==> (request.report.isInfected <==> verdict == Infected)
    case Metrics(_, _, _, status) => status == verdict
    case _ => true
  }

  predicate AllCarry(calls: seq<Effect>, statusKey: string, verdict: string)
  {
    forall e | e in calls :: Carries(e, statusKey, verdict)
  }

  lemma AllCarryAppend(a: seq<Effect>, b: seq<Effect>, statusKey: string, verdict: string)
    requires AllCarry(a, statusKey, verdict) && AllCarry(b, statusKey, verdict)
    ensures AllCarry(a + b, statusKey, verdict)
  {
  }

  lemma ReportingCarries(cfg: Config, obj: ObjectRef, hook: Webhook, w: World)
    requires cfg.Valid()
    ensures AllCarry(FromPublish(cfg, obj, hook, w), cfg.statusKey, w.verdict)
  {
    var publication := SnsScanResults(cfg.statusTopic, obj.bucket, obj.key, cfg.statusKey, cfg.timestampKey,
                                      w.verdict, w.topicTime);
    assert AllCarry(PublishEffects(publication), cfg.statusKey, w.verdict);
    var report := CallEffects(WebhookScanResults(obj.key, w.verdict, w.output, hook.url, hook.auth));
    assert AllCarry(report, cfg.statusKey, w.verdict);
    assert AllCarry(Closing(cfg, obj, w), cfg.statusKey, w.verdict);
    AllCarryAppend(report, Closing(cfg, obj, w), cfg.statusKey, w.verdict);
    AllCarryAppend(PublishEffects(publication), FromReport(cfg, obj, hook, w), cfg.statusKey, w.verdict);
  }

  lemma AllCarryCons(e: Effect, rest: seq<Effect>, statusKey: string, verdict: string)
    requires Carries(e, statusKey, verdict) && AllCarry(rest, statusKey, verdict)
    ensures AllCarry([e] + rest, statusKey, verdict)
  {
  }

  lemma RecordingCarries(cfg: Config, obj: ObjectRef, hook: Webhook, w: World)
    requires cfg.Valid()
    ensures AllCarry(FromMetadata(cfg, obj, hook, w), cfg.statusKey, w.verdict)
  {
    ReportingCarries(cfg, obj, hook, w);
    AvTaggedExactlyOne(w.tags, cfg.statusKey, cfg.timestampKey, w.verdict, w.tagTime);
    var tagSet := AvTagged(w.tags, cfg.statusKey, cfg.timestampKey, w.verdict, w.tagTime);
    assert Tag(cfg.statusKey, w.verdict) == tagSet[|tagSet| - 2];
    var put := PutObjectTagging(obj.bucket, obj.key, tagSet);
    AllCarryCons(put, FromPublish(cfg, obj, hook, w), cfg.statusKey, w.verdict);
    AllCarryCons(GetObjectTagging(obj.bucket, obj.key), [put] + FromPublish(cfg, obj, hook, w), cfg.statusKey, w.verdict);
    assert AllCarry(MetadataEffects(cfg, obj, w), cfg.statusKey, w.verdict);
    AllCarryAppend(MetadataEffects(cfg, obj, w), FromTags(cfg, obj, hook, w), cfg.statusKey, w.verdict);
  }

  /**
   * Every sink of one invocation receives the same verdict, the engine's:
   * the metadata copy, the single status tag, the status topic, the result
   * webhook's infected flag and the metrics.
   */
  lemma SinksCarryVerdict(cfg: Config, obj: ObjectRef, hook: Webhook, w: World)
    requires cfg.Valid()
    ensures AllCarry(Planned(cfg, obj, hook, w), cfg.statusKey, w.verdict)
  {
    RecordingCarries(cfg, obj, hook, w);
    var path := Fetch.LocalPath(LocalPrefix, obj.bucket, obj.key);
    var fromMetadata := FromMetadata(cfg, obj, hook, w);
    var update := UpdateDefinitions(cfg.definitionsBucket, cfg.definitionsPrefix);
    AllCarryCons(ScanLocalFile(path), fromMetadata, cfg.statusKey, w.verdict);
    AllCarryCons(update, [ScanLocalFile(path)] + fromMetadata, cfg.statusKey, w.verdict);
    AllCarryCons(DownloadObject(obj.bucket, obj.key, path), [update] + ([ScanLocalFile(path)] + fromMetadata),
                 cfg.statusKey, w.verdict);
    var start := CallEffects(WebhookScanStarted(hook.url, hook.auth));
    assert AllCarry(start, cfg.statusKey, w.verdict);
    AllCarryAppend(start, FromDownload(cfg, obj, hook, w), cfg.statusKey, w.verdict);
  }

  /** The calls an invocation makes are planned calls, so they carry the verdict too. */
  lemma RunCarriesVerdict(cfg: Config, obj: ObjectRef, hook: Webhook, w: World)
    requires cfg.Valid()
    ensures AllCarry(Execute(Planned(cfg, obj, hook, w), w.raising).trace, cfg.statusKey, w.verdict)
  {
    var plan := Planned(cfg, obj, hook, w);
    var trace := Execute(plan, w.raising).trace;
    SinksCarryVerdict(cfg, obj, hook, w);
    ExecuteRunsUntilRaise(plan, w.raising);
    forall e | e in trace ensures Carries(e, cfg.statusKey, w.verdict) {
      var i :| 0 <= i < |trace| && trace[i] == e;
      assert plan[i] == e;
    }
  }
}
