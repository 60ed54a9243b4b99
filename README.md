# Antivirus scan handler — a Dafny model

This project models `scan.py`, an AWS Lambda handler that scans objects with ClamAV. Each invocation is triggered by an SNS notification about a new S3 object. The handler:

1. decodes the bucket, the key, the webhook URL and its credential from the notification;
2. announces the scan on the webhook;
3. downloads the object to `/tmp/<bucket>/<key>`;
4. refreshes the virus definitions and scans the file;
5. sends the verdict to every sink:
   - the object's metadata (when `AV_UPDATE_METADATA` is set);
   - the object's tag set;
   - the status SNS topic (when one is configured);
   - the result webhook;
   - the metrics client;
6. removes the downloaded file.

The model has these modules:

- `Events`: decoding of the notification, including the `:service` placeholder rewrite of the webhook URL.
- `Fetch`: the download path and the inverse that reads bucket and key back from it.
- `Tags`: the tag-set rewrite. It is a `method` with the source's loop and `remove` calls, proved against the reference function `AvTagged`.
- `Metadata`: the metadata merge. It is a `class S3Object` whose `metadata` map is updated in place.
- `Sinks`: the payloads and no-op guards of the topic and webhook sinks.
- `Effects`: the external calls of one invocation. `Execute` is the reference semantics of "make the calls in order until one raises".
- `Handler`: `lambda_handler`'s body, as methods that make the calls one by one and append each to a trace.
- `Sequencing`: what every invocation does — the step order, the single verdict at every sink, and when the removal of the file is attempted.
- `Scan`: the entry point `LambdaHandler`.
- `Text`: `str.replace`, `os.path.basename` and a character search.
- `Config`: the settings from `common` and the environment.

External calls are trace events (`Effects.Effect`). The engine's verdict and output, the object's current tags, metadata and content type, the readings of the clock, and the set of calls that raise are one `Handler.World` value. `urllib.unquote_plus` is the parameter `unquote`.

The model follows the code as written, including three places where the code behaves differently from what a reader might expect:

- **The webhook is mandatory.** A webhook reads as optional (both webhook sinks skip an empty URL), but the code indexes `message['webhook']` and `message['auth']` directly and raises on an empty URL (scan.py:41-45). So a decoded event always has a webhook, and both webhook guards are dead inside the handler: `PlannedSteps` lists both webhook calls unconditionally.
- **The removal of the file is attempted only if every earlier call succeeded.** The comment at scan.py:147 gives the removal's purpose, freeing room in a reused container, which a failed invocation needs as much as a successful one. The code has no `finally`: only the removal's own `OSError` is caught (scan.py:147-151).
- **Sink errors abort.** A raising metadata, tag, topic, webhook or metrics call ends the invocation, so the later sinks, the metrics and the removal are skipped. The sinks are not isolated from one another.

## Model

| member | source | states |
|---|---|---|
| Events.DecodeMessage | scan.py:30 | the message is decoded exactly when the event has a first record carrying a JSON message, and it is that message |
| Events.EventObject | scan.py:29-36 | a locator comes out exactly when the message decodes, bucket and key are present, and both the bucket and the decoded key are non-empty; that locator's bucket is the message's bucket and its key is exactly the decoded key; the error is "no object" exactly when both fields are present but the bucket or the decoded key is empty |
| Events.ResolveWebhook | scan.py:41 | the resolved URL contains no `:service`; it is empty iff the input is; a URL without the placeholder is unchanged (that each placeholder becomes `antivirus` is `ResolveWebhookAtPlaceholder`) |
| Events.ResolveWebhookAtPlaceholder | scan.py:41 | each `:service` becomes `antivirus`: for any text `before` that holds no placeholder (a scheme such as `https:` included), `before` is kept, the placeholder that follows it is replaced by the service name, and the rest is resolved in turn |
| Events.ResolveWebhookExample | scan.py:41 | `https://x/:service` resolves to `https://x/antivirus`, by `ResolveWebhookAtPlaceholder`; the scheme's ':' is not taken for the placeholder |
| Text.ReplaceAll | scan.py:41 | `str.replace`: a left-to-right scan that replaces every non-overlapping occurrence; a function that only computes, whose properties are the `ReplaceAll…` lemmas |
| Text.ReplaceAllFirstOccurrence | scan.py:41 | up to the first occurrence of the pattern the text is copied, that occurrence becomes the replacement, and replacing continues after it |
| Events.EventWebhook | scan.py:39-46 | succeeds iff both fields are present and the decoded URL is non-empty; the URL is the decoded one with the placeholder resolved, never empty and free of `:service`; the credential is returned unchanged; the "no webhook" error holds exactly when both fields are present and the decoded URL is empty |
| Text.ReplaceAllRemovesPattern | scan.py:41 | when the pattern's first character does not occur in the replacement and the replacement's first character does not occur in the pattern, no occurrence of the pattern survives `replace` |
| Text.ReplaceAllPrefix | scan.py:41 | the first m output characters of `replace` equal the input's unless the replacement's first character is among them; a helper for `ReplaceAllRemovesPattern` (agreement up to the first occurrence is `ReplaceAllFirstOccurrence`) |
| Text.ReplaceAllEmpty | scan.py:41 | with a non-empty replacement, `replace` yields "" exactly from "" |
| Text.ReplaceAllIdentity | scan.py:41 | a string without the pattern is left unchanged by `replace` |
| Text.ReplaceAllIdempotent | scan.py:41 | resolving the placeholder twice gives what resolving once gives |
| Fetch.LocalPath | scan.py:49-53 | the download path has the length of prefix, bucket, key and two separators, starts with the prefix and "/", and ends with the key |
| Fetch.LocalPathRoundTrip | scan.py:50 | for a bucket without '/', bucket and key are read back from the download path |
| Fetch.LocalPathInjective | scan.py:50 | two objects whose buckets hold no '/' share a download path only if they are the same object |
| Metadata.MergeAvMetadata | scan.py:57-60 | the merged map's keys are the old keys plus the two AV keys; the status key maps to the verdict (when the keys differ), the timestamp key to the time, and every other key keeps its value |
| Metadata.MergeAvMetadataIdempotent | scan.py:58-60 | merging the same verdict and time twice is the same as merging once, for any two keys |
| Metadata.S3Object.constructor | scan.py:36 | the resource holds the given locator, content type and metadata |
| Metadata.S3Object.SetAvMetadata | scan.py:56-71 | the object's metadata becomes the merge of the old metadata; the copy request targets the same bucket and key, carries the original content type and the merged metadata, with directive REPLACE |
| Tags.AvTagged | scan.py:76-81 | the tag set `set_av_tags` writes: the stripped tags, then the status tag, then the timestamp tag; a function that only computes, whose properties are `StripMembers`, `StripAppend`, `AvTaggedExactlyOne`, `RetagReplaces` and `AvTaggedIdempotent`, and which `SetAvTags` is proved to compute |
| Tags.SetAvTags | scan.py:74-86 | the loop of `remove` calls followed by the two appends writes exactly `AvTagged`: the stripped tags, then one status tag with the verdict, then one timestamp tag |
| Tags.RemoveFirst | scan.py:79 | `list.remove` on a list holding the element shortens it by one; which element goes is `RemoveFirstAfter` |
| Tags.RemoveFirstAfter | scan.py:79 | `list.remove` takes out the first element equal to its argument: everything before it and after it stays, in order |
| Tags.RemoveStep | scan.py:77-79 | one `remove` of a status or timestamp tag takes out exactly that tag, at the point the walk has reached |
| Tags.KeepStep | scan.py:77-78 | one step over any other tag leaves it in place |
| Tags.StripMembers | scan.py:76-79 | the kept tags are exactly the input tags whose key is neither the status key nor the timestamp key |
| Tags.StripAppend | scan.py:76-79 | stripping a concatenation strips each part, so the kept tags keep their original relative order |
| Tags.StripKeepsPlainTags | scan.py:76-79 | a tag set without status or timestamp tags is kept whole |
| Tags.RetagReplaces | scan.py:76-81 | re-tagging an already tagged object replaces the earlier verdict and time; nothing of them remains |
| Tags.AvTaggedIdempotent | scan.py:76-81 | rewriting the tag set with the same verdict and time gives back the same list |
| Tags.AvTaggedExactlyOne | scan.py:76-81 | with distinct keys, the written tag set has exactly one status tag and exactly one timestamp tag, whatever tags the object carried before |
| Tags.CountKeyAppend | scan.py:80-81 | the number of tags with a key adds up over a concatenation |
| Sinks.TopicMessage | scan.py:92-97 | the topic message has exactly the keys "bucket", "key" and the two AV keys; the verdict and the time sit under the configured keys, later entries winning on a clash as in a Python dict literal |
| Sinks.SnsScanResults | scan.py:89-103 | nothing is published iff no topic is configured; otherwise the publication targets that topic with `TopicMessage` |
| Sinks.WebhookScanStarted | scan.py:106-110 | no call iff the URL is empty; otherwise a POST to that URL with the credential |
| Sinks.ScanResultReport | scan.py:116-126 | `is_infected` iff the verdict is "INFECTED"; the status is "success"; the result is "INFECTED: " + output when infected, "clean" otherwise; the file name is the key's basename |
| Sinks.ReportDecodes | scan.py:116-126 | a receiver reads the verdict back from the report: the result is "clean" iff not infected, and otherwise it is the prefix followed by the engine's output; the file name is a '/'-free suffix of the key |
| Text.Basename | scan.py:122 | `os.path.basename`; a function that only computes, whose property is `BasenameIsLastSegment` |
| Text.BasenameIsLastSegment | scan.py:122 | `basename` is the longest suffix of the key without a '/' |
| Sinks.WebhookScanResults | scan.py:113-127 | no call iff the URL is empty; otherwise a PATCH to that URL with the report and the credential |
| Effects.Fatal | scan.py:134-151 | a call that raises ends `lambda_handler` unless it is the removal of the file, whose `OSError` alone is caught; a predicate that only computes, used by `Execute` and stated in `RunsUntilRaise` |
| Effects.Execute | scan.py:134-151 | the planned calls made in order, the first fatal one ending the invocation; a function that only computes, whose properties are `ExecuteRunsUntilRaise`, `ExecuteIsRunsUntilRaise` and `RemovalNeverFatal` |
| Effects.ExecuteRunsUntilRaise | scan.py:134-151 | `Execute` makes the planned calls up to and including the first fatal one, or all of them when none is fatal |
| Effects.RunsUntilRaiseUnique | scan.py:134-151 | a plan has one run: two runs of the same plan agree on trace and outcome |
| Effects.ExecuteIsRunsUntilRaise | scan.py:134-151 | `Execute` gives a trace and outcome iff they are a run of the plan up to its first raise |
| Effects.RemovalNeverFatal | scan.py:148-151 | when only the removal raises, every planned call is made and the invocation completes |
| Effects.Attempt | scan.py:134-151 | making the next planned call appends it to the trace; it is the last call if it raises fatally, otherwise the run continues with the rest of the plan |
| Handler.Planned | scan.py:136-151 | the calls of `lambda_handler` on a decoded event when none raises, built stage by stage (`FromDownload` … `Closing`); a function that only computes, whose order is `PlannedSteps` and whose ends are `PlannedBookends` |
| Handler.PlannedBookends | scan.py:136-151 | with a webhook the announcement is the first planned call, and the removal of the downloaded file is always the last |
| Handler.FetchAndScan | scan.py:137-139 | download, definitions update and scan are made in that order, each ending the run if it raises |
| Handler.MetadataCopy | scan.py:141-142 | the copy request the `S3Object` produces is the one the plan expects |
| Handler.RecordMetadata | scan.py:141-142 | the metadata copy is made exactly when the flag is set, ending the run if it raises |
| Handler.RecordTags | scan.py:143 | the tag set is read, then written back as `SetAvTags` computes it, each call ending the run if it raises |
| Handler.RecordVerdict | scan.py:141-143 | the metadata copy and then the tag rewrite, as planned |
| Handler.Notify | scan.py:144-145 | the topic publication when configured, then the result webhook, each ending the run if it raises |
| Handler.Finish | scan.py:146-151 | the metrics call ends the run if it raises; the removal follows and never ends the run |
| Handler.Report | scan.py:144-151 | the notifications, the metrics and the removal, as planned |
| Handler.Run | scan.py:136-151 | the calls made and the outcome are exactly `Execute` of the planned calls |
| Sequencing.PlannedSteps | scan.py:134-151 | with a webhook, the planned calls follow `StepOrder`: announce, download, update, scan, the metadata copy iff the flag is set, read and write tags, the topic iff configured, the result webhook, metrics, removal |
| Sequencing.RemovalIsLast | scan.py:147-151 | the removal is the last step of the order and no earlier step is one |
| Sequencing.StepsPrefix | scan.py:134-151 | the steps of a prefix of the calls are a prefix of their steps |
| Sequencing.RunFollowsStepOrder | scan.py:134-151 | the calls an invocation makes are a prefix of `StepOrder` |
| Sequencing.RemovalOnlyOnSuccess | scan.py:147-151 | the removal of the file is attempted iff the invocation completed, that is iff no earlier call raised; any raise before it skips the removal (a removal that itself raises still completes the run) |
| Sequencing.RemovalFailureSwallowed | scan.py:148-151 | when only the removal raises, the invocation completes with every step of `StepOrder` |
| Sequencing.SinksCarryVerdict | scan.py:141-146 | with distinct keys, every sink in the plan receives the engine's verdict: the metadata copy, the single status tag, the topic message, the webhook's infected flag and the metrics status |
| Sequencing.RunCarriesVerdict | scan.py:141-146 | the calls actually made carry the same verdict |
| Sequencing.StepsOfReporting | scan.py:144-151 | the steps after the tags: the topic when configured, the result webhook, metrics, removal |
| Sequencing.StepsOfTagging | scan.py:143 | the tag steps are a read followed by a write |
| Sequencing.StepsOfRecording | scan.py:141-142 | the metadata copy step is present iff the flag is set |
| Sequencing.ReportingCarries | scan.py:144-146 | the topic, the result webhook and the metrics carry the verdict |
| Sequencing.RecordingCarries | scan.py:141-146 | the metadata copy and the tag write carry the verdict as well |
| Scan.LambdaHandler | scan.py:130-151 | an undecodable event makes no call and reports its decoding error; a decoded one makes the planned calls up to the first raise, in `StepOrder`, each sink with the engine's verdict, attempts the removal of the file iff no earlier call raised, and completes with every step when only the removal raises |

## Left out

- ReplaceAllPrefix: states agreement of `replace`'s output with its input only on a prefix that holds no copy of the replacement's first character. It is the step `ReplaceAllRemovesPattern` needs. The exact statement, that the text before the first occurrence is copied unchanged, is `ReplaceAllFirstOccurrence`.
- Fetch.LocalPath: strings are sequences of characters, so the path is built for every key. In the code, `json.loads` returns the bucket as a unicode string, while the key is the byte string `unquote_plus` returns. The `%` formatting at scan.py:50 therefore decodes the key as ASCII and raises `UnicodeDecodeError` for a key with non-ASCII characters. That happens after the webhook POST and before the download, so such an object is never scanned. The model does not tie this raise to the key; it is represented only by `Download` in `World.raising`.
- boto3 (`download_file`, `copy`, `get_object_tagging`, `put_object_tagging`, `publish`) is not modelled. Each call is a trace event whose arguments the model computes; the current tags, metadata and content type come from `World`.
- The ClamAV engine is not modelled. `update_defs_from_s3` and `scan_file` are trace events; their verdict and output come from `World`, and their failure is membership of their step in `World.raising`.
- `requests.post`, `requests.patch` and `metrics.send` are network I/O. The model keeps only their arguments and whether the call is made.
- JSON parsing and serialisation are not modelled. The decoded message is a record of optional fields; a missing field, or a message that is not a JSON object, is a decoding error. `json.dumps` of the topic message is left out: the publication holds the map before serialisation.
- `urllib.unquote_plus` and the UTF-8 encoding of the key and the URL are the uninterpreted parameter `unquote`.
- `datetime.utcnow()` and `strftime` are left out. The three timestamps (metadata, tags, topic) are strings in `World`, because each sink reads the clock on its own.
- `create_dir` and `os.remove` are not modelled as filesystem operations. The removal is a trace event, and its `OSError` is the one raise that is swallowed.
- `os.environ` and `ENV` are read once into `Config`.
- `print` is logging and is left out.
- The constants from `common` (`AV_STATUS_METADATA`, `AV_TIMESTAMP_METADATA`, `AV_STATUS_SNS_ARN` and the definitions bucket and prefix) are fields of `Config`. `common` is not part of this model.
- The properties that need distinct status and timestamp keys require them (`Config.Valid`).
- Which exception a failing call raises is not modelled. Any raise ends the invocation, except for the removal.
- Concurrency across invocations and reuse of the Lambda container are left out. One invocation is modelled.
