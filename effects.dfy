/**
 * The external calls one invocation of the handler makes, and what it means
 * to run a planned list of them until the first one that raises.
 */
module Effects {
  import opened Events
  import opened Tags
  import opened Metadata
  import opened Sinks

  /** The external calls of one invocation, in the order the handler makes them. */
  datatype Step =
    | NotifyStart | Download | RefreshDefinitions | ScanFile | CopyMetadata
    | ReadTags | WriteTags | PublishStatus | NotifyResult | SendMetrics | RemoveFile

  /** One external call and its arguments. */
  datatype Effect =
    | WebhookCall(request: HttpRequest)
    | DownloadObject(bucket: string, key: string, path: string)
    | UpdateDefinitions(definitionsBucket: string, definitionsPrefix: string)
    | ScanLocalFile(scanPath: string)
    | CopyObject(copy: CopyRequest)
    | GetObjectTagging(tagBucket: string, tagKey: string)
    | PutObjectTagging(putBucket: string, putKey: string, tagSet: seq<Tag>)
    | PublishTopic(publication: Publication)
    | Metrics(env: string, metricsBucket: string, metricsKey: string, status: string)
    | RemoveLocalFile(removePath: string)

  function StepOf(e: Effect): Step
  {
    match e
    case WebhookCall(request) => if request.Post? then NotifyStart else NotifyResult
    case DownloadObject(_, _, _) => Download
    case UpdateDefinitions(_, _) => RefreshDefinitions
    case ScanLocalFile(_) => ScanFile
    case CopyObject(_) => CopyMetadata
    case GetObjectTagging(_, _) => ReadTags
    case PutObjectTagging(_, _, _) => WriteTags
    case PublishTopic(_) => PublishStatus
    case Metrics(_, _, _, _) => SendMetrics
    case RemoveLocalFile(_) => RemoveFile
  }

  datatype Outcome =
    | Rejected(error: DecodeError)  // the event could not be decoded; no call was made
    | Aborted(step: Step)           // this call raised and ended the invocation
    | Completed                     // every call was made

  /** A call that raises and is not caught: every call but the removal of the file. */
  predicate Fatal(e: Effect, raising: set<Step>)
  {
    StepOf(e) in raising && StepOf(e) != RemoveFile
  }

  predicate NoneFatal(trace: seq<Effect>, raising: set<Step>)
  {
    forall i :: 0 <= i < |trace| ==> !Fatal(trace[i], raising)
  }

  /**
   * `trace` and `outcome` are what running `plan` gives: the calls up to and
   * including the first fatal one, or all of them.
   */
  predicate RunsUntilRaise(trace: seq<Effect>, outcome: Outcome, plan: seq<Effect>, raising: set<Step>)
  {
    && trace <= plan
    && match outcome
       case Completed => trace == plan && NoneFatal(trace, raising)
       case Aborted(step) =>
         && trace != []
         && NoneFatal(trace[..|trace| - 1], raising)
         && Fatal(trace[|trace| - 1], raising)
         && step == StepOf(trace[|trace| - 1])
       case Rejected(_) => false
  }

  /** The calls an invocation made and how it ended. */
  datatype Execution = Execution(trace: seq<Effect>, outcome: Outcome)

  /** `calls`, none of them fatal, made before the run `rest`. */
  function After(calls: seq<Effect>, rest: Execution): Execution
  {
    Execution(calls + rest.trace, rest.outcome)
  }

  /**
   * Makes the calls of `plan` in order; the first one that raises ends the
   * invocation and is the last call made.
   */
  function Execute(plan: seq<Effect>, raising: set<Step>): Execution
    decreases |plan|
  {
    if plan == [] then Execution([], Completed)
    else if Fatal(plan[0], raising) then Execution([plan[0]], Aborted(StepOf(plan[0])))
    else After([plan[0]], Execute(plan[1..], raising))
  }

  /** What `Execute` gives is a run of the plan up to its first fatal call. */
  lemma {:induction false} ExecuteRunsUntilRaise(plan: seq<Effect>, raising: set<Step>)
    ensures RunsUntilRaise(Execute(plan, raising).trace, Execute(plan, raising).outcome, plan, raising)
    decreases |plan|
  {
    if plan != [] && !Fatal(plan[0], raising) {
      var rest := Execute(plan[1..], raising);
      ExecuteRunsUntilRaise(plan[1..], raising);
      var trace := [plan[0]] + rest.trace;
      assert plan == [plan[0]] + plan[1..];
      assert trace <= plan;
      forall i | 0 <= i < |trace| && (rest.outcome.Completed? || i < |trace| - 1)
        ensures !Fatal(trace[i], raising)
      {
        if i > 0 {
          assert trace[i] == rest.trace[i - 1];
        }
      }
      if rest.outcome.Aborted? {
        assert trace[..|trace| - 1] == [plan[0]] + rest.trace[..|rest.trace| - 1];
        assert trace[|trace| - 1] == rest.trace[|rest.trace| - 1];
      }
    }
  }

  /** Running a plan gives one trace and one outcome. */
  lemma RunsUntilRaiseUnique(trace1: seq<Effect>, outcome1: Outcome, trace2: seq<Effect>, outcome2: Outcome,
                             plan: seq<Effect>, raising: set<Step>)
    requires RunsUntilRaise(trace1, outcome1, plan, raising)
    requires RunsUntilRaise(trace2, outcome2, plan, raising)
    requires |trace1| <= |trace2|
    ensures trace1 == trace2 && outcome1 == outcome2
  {
    assert trace1 == plan[..|trace1|] && trace2 == plan[..|trace2|];
    var k := |trace1|;
    if outcome1.Aborted? {
      // the call that ended the first run is one the second run made too
      assert trace2[k - 1] == trace1[k - 1];
      assert outcome2.Aborted? ==> forall i :: 0 <= i < |trace2| - 1 ==> !Fatal(trace2[i], raising);
    } else {
      assert trace2 == plan;
    }
  }

  /** `Execute` is exactly the runs `RunsUntilRaise` describes. */
  lemma ExecuteIsRunsUntilRaise(trace: seq<Effect>, outcome: Outcome, plan: seq<Effect>, raising: set<Step>)
    ensures Execute(plan, raising) == Execution(trace, outcome) <==> RunsUntilRaise(trace, outcome, plan, raising)
  {
    var x := Execute(plan, raising);
    ExecuteRunsUntilRaise(plan, raising);
    if RunsUntilRaise(trace, outcome, plan, raising) {
      if |trace| <= |x.trace| {
        RunsUntilRaiseUnique(trace, outcome, x.trace, x.outcome, plan, raising);
      } else {
        RunsUntilRaiseUnique(x.trace, x.outcome, trace, outcome, plan, raising);
      }
    }
  }

  /** A removal that raises is swallowed: when nothing else raises, every planned call is made. */
  lemma {:induction false} RemovalNeverFatal(plan: seq<Effect>, raising: set<Step>)
    requires raising <= {RemoveFile}
    ensures Execute(plan, raising) == Execution(plan, Completed)
    decreases |plan|
  {
    if plan != [] {
      assert !Fatal(plan[0], raising);
      RemovalNeverFatal(plan[1..], raising);
      assert [plan[0]] + plan[1..] == plan;
    }
  }

  /**
   * Makes the next planned call, `e`, the head of what remains of the plan;
   * it raises when the world says so.
   */
  method Attempt(e: Effect, raising: set<Step>, trace: seq<Effect>,
                 ghost rest: seq<Effect>, ghost next: seq<Effect>, ghost plan: seq<Effect>)
    returns (trace': seq<Effect>, fatal: bool)
    requires Execute(plan, raising) == After(trace, Execute(rest, raising))
    requires rest == [e] + next
    ensures trace' == trace + [e]
    ensures fatal == Fatal(e, raising)
    ensures fatal ==> Execute(plan, raising) == Execution(trace', Aborted(StepOf(e)))
    ensures !fatal ==> Execute(plan, raising) == After(trace', Execute(next, raising))
    ensures !fatal && next == [] ==> Execute(plan, raising) == Execution(trace', Completed)
  {
    trace' := trace + [e];
    fatal := Fatal(e, raising);
    assert rest[0] == e && rest[1..] == next;
    assert trace + ([e] + Execute(next, raising).trace) == trace' + Execute(next, raising).trace;
    if next == [] {
      assert trace' + [] == trace';
    }
  }
}
