/**
 * `lambda_handler` of `scan.py`: the entry point of one invocation. It
 * decodes the event and, for a decoded one, makes the planned calls until
 * one of them raises.
 */
module Scan {
  import opened Config
  import opened Events
  import opened Effects
  import opened Handler
  import opened Sequencing

  /**
   * `lambda_handler`. An event that does not decode makes no call. For one
   * that does, the calls are those of `Planned` up to the first one that
   * raises: they follow `StepOrder`, every sink among them receives the
   * engine's verdict, and the removal of the file is attempted exactly when
   * no earlier call raised.
   */
  method LambdaHandler(cfg: Config, event: Event, unquote: string -> string, w: World)
    returns (trace: seq<Effect>, outcome: Outcome)
    ensures EventObject(event, unquote).Err? ==>
      trace == [] && outcome == Rejected(EventObject(event, unquote).error)
    ensures EventObject(event, unquote).Ok? && EventWebhook(event, unquote).Err? ==>
      trace == [] && outcome == Rejected(EventWebhook(event, unquote).error)
    ensures EventObject(event, unquote).Ok? && EventWebhook(event, unquote).Ok? ==>
      && RunsUntilRaise(trace, outcome,
                        Planned(cfg, EventObject(event, unquote).value, EventWebhook(event, unquote).value, w),
                        w.raising)
      && Steps(trace) <= StepOrder(cfg)
      && (RemoveFile in Steps(trace) <==> outcome == Completed)
      && (cfg.Valid() ==> AllCarry(trace, cfg.statusKey, w.verdict))
      && (w.raising <= {RemoveFile} ==> outcome == Completed && Steps(trace) == StepOrder(cfg))
  {
    var objResult := EventObject(event, unquote);
    if objResult.Err? {
      return [], Rejected(objResult.error);
    }
    var obj := objResult.value;
    var hookResult := EventWebhook(event, unquote);
    if hookResult.Err? {
      return [], Rejected(hookResult.error);
    }
    var hook := hookResult.value;
    trace, outcome := Run(cfg, obj, hook, w);
    ExecuteIsRunsUntilRaise(trace, outcome, Planned(cfg, obj, hook, w), w.raising);
    RunFollowsStepOrder(cfg, obj, hook, w);
    RemovalOnlyOnSuccess(cfg, obj, hook, w);
    if w.raising <= {RemoveFile} {
      RemovalFailureSwallowed(cfg, obj, hook, w);
    }
    if cfg.Valid() {
      RunCarriesVerdict(cfg, obj, hook, w);
    }
  }
}
