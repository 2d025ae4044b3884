/** Postponed requests (istio/envoy/wasm-go/postpone_requests). */
module Postpone {
  import opened Common
  import opened ProxyHost

  datatype State = State(host: View, postponed: seq<StreamId>)

  datatype Event = Request(stream: StreamId) | Tick

  const INIT := State(IDLE, [])

  /** Context ids are never used twice. */
  predicate Enabled(s: State, e: Event) {
    e.Request? ==> e.stream !in s.host.streams
  }

  /** Resuming the queued streams one after the other. */
  function ResumeAll(v: View, queue: seq<StreamId>): (w: View)
    ensures w.streams.Keys == v.streams.Keys
  {
    if queue == [] then v
    else
      var w := ResumeAll(v, Front(queue));
      if Last(queue) in w.streams then Resumed(w, Last(queue)) else w
  }

  function Step(s: State, e: Event): State {
    match e
    case Request(stream) => State(Opened(s.host, stream, true), s.postponed + [stream])
    case Tick => State(ResumeAll(s.host, s.postponed), [])
  }

  predicate IsRun(run: seq<Event>) {
    run == [] || (IsRun(Front(run)) && Enabled(Exec(Front(run)), Last(run)))
  }

  function Exec(run: seq<Event>): State {
    if run == [] then INIT else Step(Exec(Front(run)), Last(run))
  }

  function Arrivals(run: seq<Event>): seq<StreamId> {
    if run == [] then []
    else Arrivals(Front(run)) + if Last(run).Request? then [Last(run).stream] else []
  }

  function StreamsOf(events: seq<Event>): seq<StreamId>
    requires forall k :: 0 <= k < |events| ==> events[k].Request?
  {
    seq(|events|, k requires 0 <= k < |events| => events[k].stream)
  }

  predicate IsRequest(e: Event) {
    e.Request?
  }

  /** The arrivals are the streams of exactly the request events, in order. */
  lemma {:induction false} ArrivalsInOrder(run: seq<Event>)
    ensures var requests := Picked(run, IsRequest);
            (forall k :: 0 <= k < |requests| ==> requests[k].Request?) && Arrivals(run) == StreamsOf(requests)
  {
    if run != [] {
      ArrivalsInOrder(Front(run));
    }
  }

  lemma {:induction false} ResumeAllMeaning(v: View, queue: seq<StreamId>)
    requires NoDuplicates(queue)
    requires forall i :: 0 <= i < |queue| ==> queue[i] in v.streams
    ensures ResumeAll(v, queue).resumed == v.resumed + queue
    ensures forall s :: s in v.streams ==>
              ResumeAll(v, queue).streams[s] ==
              if s in queue then v.streams[s].(paused := false, resumes := v.streams[s].resumes + 1) else v.streams[s]
  {
    if queue != [] {
      ResumeAllMeaning(v, Front(queue));
      assert queue == Front(queue) + [Last(queue)];
      assert v.resumed + queue == v.resumed + Front(queue) + [Last(queue)];
    }
  }

  /** Only streams that the host knows are ever queued. */
  ghost predicate Known(s: State) {
    forall i :: 0 <= i < |s.postponed| ==> s.postponed[i] in s.host.streams
  }

  ghost predicate Fair(s: State, arrivals: seq<StreamId>) {
    && NoDuplicates(arrivals)
    && s.host.resumed + s.postponed == arrivals
    && (forall x :: x in s.host.streams <==> x in arrivals)
    && (forall x :: x in s.host.streams ==>
          && (s.host.streams[x].paused <==> x in s.postponed)
          && s.host.streams[x].resumes == if x in s.postponed then 0 else 1)
  }

  lemma FairStep(s: State, arrivals: seq<StreamId>, e: Event)
    requires Known(s) && Fair(s, arrivals) && Enabled(s, e)
    ensures Fair(Step(s, e), arrivals + if e.Request? then [e.stream] else [])
    ensures Known(Step(s, e))
    ensures e.Tick? ==> Step(s, e).host.resumed == s.host.resumed + s.postponed
  {
    match e
    case Request(stream) =>
      NoDuplicatesConcat(arrivals, [stream]);
      assert s.host.resumed + (s.postponed + [stream]) == arrivals + [stream];
      assert stream !in s.host.resumed + s.postponed;
    case Tick =>
      assert NoDuplicates(s.postponed) by {
        var n := |s.host.resumed|;
        assert forall i :: 0 <= i < |s.postponed| ==> s.postponed[i] == arrivals[n + i];
      }
      ResumeAllMeaning(s.host, s.postponed);
      assert arrivals + [] == arrivals;
  }

  /**
   * Over every run the paused streams are exactly those in the queue, and the streams resumed so
   * far followed by the queue are the arrivals in order; so each stream is resumed at most once.
   */
  lemma {:induction false} PausedIffQueued(run: seq<Event>)
    requires IsRun(run)
    ensures Known(Exec(run)) && Fair(Exec(run), Arrivals(run))
  {
    if run != [] {
      PausedIffQueued(Front(run));
      FairStep(Exec(Front(run)), Arrivals(Front(run)), Last(run));
    } else {
      assert NoDuplicates(Arrivals(run));
    }
  }

  /** After a tick nothing is paused and every stream that ever arrived was resumed once, in arrival order. */
  lemma TickDrains(run: seq<Event>)
    requires IsRun(run) && run != [] && Last(run).Tick?
    ensures Exec(run).postponed == []
    ensures Exec(run).host.resumed == Arrivals(run)
    ensures forall x :: x in Exec(run).host.streams ==>
              !Exec(run).host.streams[x].paused && Exec(run).host.streams[x].resumes == 1
  {
    PausedIffQueued(run);
    assert Exec(run).host.resumed + [] == Exec(run).host.resumed;
  }

  // ---------- The code ----------

  class PluginContext {
    var postponed: seq<StreamId>

    constructor ()
      ensures postponed == []
    {
      postponed := [];
    }

    /** OnHttpRequestHeaders of the stream's context; the host opens the stream and obeys the returned action. */
    method OnHttpRequestHeaders(host: Host, contextID: StreamId)
      requires contextID !in host.streams
      modifies this, host
      ensures State(host.Seen(), postponed) == Step(old(State(host.Seen(), postponed)), Request(contextID))
    {
      host.Open(contextID);
      postponed := postponed + [contextID];
      host.Pause(contextID);
    }

    /** OnTick: drains the queue, whatever its length. */
    method OnTick(host: Host)
      requires forall i :: 0 <= i < |postponed| ==> postponed[i] in host.streams
      modifies this, host
      ensures State(host.Seen(), postponed) == Step(old(State(host.Seen(), postponed)), Tick)
    {
      ghost var done := 0;
      while |postponed| > 0
        invariant done + |postponed| == |old(postponed)|
        invariant postponed == old(postponed)[done..]
        invariant host.Seen() == ResumeAll(old(host.Seen()), old(postponed)[..done])
        decreases |postponed|
      {
        var httpCtxId, tail := postponed[0], postponed[1..];
        host.SetEffectiveContext(httpCtxId);
        host.Resume();
        postponed := tail;
        assert Front(old(postponed)[..done + 1]) == old(postponed)[..done];
        done := done + 1;
      }
      assert old(postponed)[..done] == old(postponed);
    }
  }

  /** The host's event loop over the code: every run of events ends in the state that the run describes. */
  method HandleEvents(run: seq<Event>) returns (host: Host, plugin: PluginContext)
    requires IsRun(run)
    ensures fresh(host) && fresh(plugin)
    ensures State(host.Seen(), plugin.postponed) == Exec(run)
    ensures Fair(State(host.Seen(), plugin.postponed), Arrivals(run))
    decreases |run|
  {
    if run == [] {
      host := new Host();
      plugin := new PluginContext();
    } else {
      host, plugin := HandleEvents(Front(run));
      PausedIffQueued(Front(run));
      match Last(run)
      case Request(stream) => plugin.OnHttpRequestHeaders(host, stream);
      case Tick => plugin.OnTick(host);
    }
    PausedIffQueued(run);
  }
}
