/** What the watchers' calls make the relay do, by its script. */
module PipelineScript {
  import opened Texts
  import opened Snapshots
  import EW = ExportWatch
  import opened BridgeRelay
  import opened BridgeRuns
  import opened BridgeScript
  import opened BridgePipeline
  import opened WatchGrounding

  /** The callback that a watcher's call is to the relay. */
  function CallbackOf(h: Handle, o: EW.Output): RelayEvent {
    match o
    case Publish(_, s, _) => Snap(h, s)
    case Quiet(reason, _) => RelayEvent.Quiet(h, reason)
  }

  lemma NotifyAnswers(r: Relay, h: Handle, calls: seq<EW.Output>)
    requires RelayOk(r) && Facts(r, PastNow(r)) && Started(h) in r.log
    ensures var next := Notify(r, h, calls);
            && Facts(next, PastNow(next))
            && if calls == [] then next == r else Answers(r, next, CallbackOf(h, calls[0]))
  {
    if calls != [] { StepAnswers(r, CallbackOf(h, calls[0])); }
  }

  lemma {:induction false} PipeFacts(environment: Option<string>, es: seq<PipeEvent>, now: real)
    requires Plausible(es, now)
    ensures var r := RunPipe(NewPipeline(environment), es).relay; RelayOk(r) && Facts(r, PastNow(r))
    decreases |es|
  {
    PipelineReachable(environment, es, now);
    if es != [] {
      var (before, e) := (es[..|es| - 1], es[|es| - 1]);
      RunPipeLast(NewPipeline(environment), es, now);
      PipeFacts(environment, before, now);
      PipelineReachable(environment, before, now);
      var p := RunPipe(NewPipeline(environment), before);
      match e {
        case Api(a) => StepAnswers(p.relay, a);
        case Watching(h, w) => if h in p.watchers { NotifyAnswers(p.relay, h, NewCalls(p, h, w)); }
      }
    }
  }

  ghost predicate Heard(p: Pipeline, next: Pipeline, h: Handle, w: EW.WatchEvent)
    requires h in p.watchers
  {
    var calls := NewCalls(p, h, w);
    && next.watchers == p.watchers[h := EW.Step(p.watchers[h], w)]
    && if calls == [] then next.relay == p.relay
       else Answers(p.relay, next.relay, CallbackOf(h, calls[0]))
  }

  lemma StepIsHeard(p: Pipeline, h: Handle, w: EW.WatchEvent)
    requires RelayOk(p.relay) && Facts(p.relay, PastNow(p.relay)) && h in p.watchers && Started(h) in p.relay.log
    ensures Heard(p, StepPipe(p, Watching(h, w)), h, w)
  {
    NotifyAnswers(p.relay, h, NewCalls(p, h, w));
  }

  lemma WatchersWereStarted(p: Pipeline, now: real, h: Handle)
    requires PipeOk(p, now) && h in p.watchers
    ensures Started(h) in p.relay.log
  {
  }

  /** Through the whole bridge: a step of a watcher is to the relay the call it
      makes, if any, and the relay does exactly what its script says of it. */
  lemma WatchersAreHeard(environment: Option<string>, es: seq<PipeEvent>, now: real, h: Handle, w: EW.WatchEvent)
    requires Plausible(es, now) && h in RunPipe(NewPipeline(environment), es).watchers
    ensures var p := RunPipe(NewPipeline(environment), es);
            Heard(p, StepPipe(p, Watching(h, w)), h, w)
  {
    PipeFacts(environment, es, now);
    PipelineReachable(environment, es, now);
    var p := RunPipe(NewPipeline(environment), es);
    WatchersWereStarted(p, EndClock(es, now), h);
    StepIsHeard(p, h, w);
  }
}
