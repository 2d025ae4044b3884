/** The fan-out/fan-in barrier (istio/envoy/wasm-go/multiple_dispatches), for any dispatch count. */
module MultipleDispatches {
  import opened Common
  import opened ProxyHost

  const TOTAL_DISPATCH_NUM := 10

  function Itoa(n: nat): string {
    var digit := ["0123456789"[n % 10]];
    if n < 10 then digit else Itoa(n / 10) + digit
  }

  /** Reads a decimal number. */
  function Atoi(s: string): int {
    if s == "" then 0 else 10 * Atoi(Front(s)) + (Last(s) as int - '0' as int)
  }

  /** A decimal number: digits only, and no leading zero except for zero itself. */
  predicate IsDecimal(s: string) {
    && s != ""
    && (forall i :: 0 <= i < |s| ==> '0' <= s[i] <= '9')
    && (s[0] == '0' ==> |s| == 1)
  }

  lemma {:induction false} ItoaRoundTrip(n: nat)
    ensures IsDecimal(Itoa(n)) && Atoi(Itoa(n)) == n
    ensures n > 0 ==> Itoa(n)[0] != '0'
  {
    var d := n % 10;
    assert "0123456789"[d] as int == '0' as int + d;
    if n < 10 {
      assert Front(Itoa(n)) == "";
    } else {
      ItoaRoundTrip(n / 10);
      assert Front(Itoa(n)) == Itoa(n / 10);
    }
  }

  function TotalDispatched(n: nat): Header {
    Header("total-dispatched", Itoa(n))
  }

  /** The header that reports a count to the client. */
  predicate Reports(h: Header, n: nat) {
    h.name == "total-dispatched" && IsDecimal(h.value) && Atoi(h.value) == n
  }

  lemma TotalReports(n: nat)
    ensures Reports(TotalDispatched(n), n)
  {
    ItoaRoundTrip(n);
  }

  /** `pending` is the counter that each stream's context keeps. */
  datatype State = State(host: View, pending: map<StreamId, int>)

  datatype Event = ResponseHeaders(stream: StreamId) | Callback(callout: CalloutId)

  const INIT := State(IDLE, map[])

  predicate Enabled(s: State, e: Event) {
    match e
    case ResponseHeaders(stream) => stream !in s.host.streams
    case Callback(c) => c in s.host.callouts && s.host.callouts[c] in s.host.streams && s.host.callouts[c] in s.pending
  }

  /** The next `n` callout ids, all belonging to one stream. */
  function Calls(callouts: map<CalloutId, StreamId>, next: CalloutId, s: StreamId, n: nat): (r: map<CalloutId, StreamId>)
    ensures forall c :: c in r <==> c in callouts || next <= c < next + n
    ensures forall c :: c in r ==> r[c] == if next <= c < next + n then s else callouts[c]
  {
    if n == 0 then callouts else Calls(callouts, next, s, n - 1)[next + n - 1 := s]
  }

  /** The host after `n` callouts were dispatched for a newly opened stream. */
  function Dispatched(v: View, s: StreamId, n: nat): View {
    Opened(v, s, true).(callouts := Calls(v.callouts, v.nextCallout, s, n), nextCallout := v.nextCallout + n)
  }

  /** The host after the last of a stream's callouts was answered. */
  function Released(v: View, s: StreamId, n: nat): View
    requires s in v.streams
  {
    var x := v.streams[s];
    Resumed(v.(streams := v.streams[s := x.(added := x.added + [TotalDispatched(n)])]), s)
  }

  function AfterCallback(v: View, c: CalloutId, pending: int, n: nat): View
    requires c in v.callouts && v.callouts[c] in v.streams
  {
    var w := v.(callouts := v.callouts - {c});
    if pending == 0 then Released(w, v.callouts[c], n) else w
  }

  function Step(s: State, e: Event, n: nat): State
    requires Enabled(s, e)
  {
    match e
    case ResponseHeaders(stream) => State(Dispatched(s.host, stream, n), s.pending[stream := n])
    case Callback(c) =>
      var stream := s.host.callouts[c];
      var left := s.pending[stream] - 1;
      State(AfterCallback(s.host, c, left, n), s.pending[stream := left])
  }

  predicate IsRun(run: seq<Event>, n: nat)
    decreases |run|, 0
  {
    run == [] || (IsRun(Front(run), n) && Enabled(Exec(Front(run), n), Last(run)))
  }

  function Exec(run: seq<Event>, n: nat): State
    requires IsRun(run, n)
    decreases |run|, 1
  {
    if run == [] then INIT else Step(Exec(Front(run), n), Last(run), n)
  }

  // ---------- The barrier ----------

  ghost predicate StreamOk(s: State, x: StreamId, n: nat)
    requires x in s.host.streams
  {
    && x in s.pending
    && s.pending[x] == |Outstanding(s.host, x)| <= n
    && var v := s.host.streams[x];
       if n > 0 && s.pending[x] == 0
       then !v.paused && v.resumes == 1 && v.added == [TotalDispatched(n)]
       else v.paused && v.resumes == 0 && v.added == []
  }

  ghost predicate Guarded(s: State, n: nat) {
    && Sound(s.host)
    && (forall x :: x in s.pending ==> x in s.host.streams)
    && (forall x :: x in s.host.streams ==> StreamOk(s, x, n))
  }

  lemma AddCall(callouts: map<CalloutId, StreamId>, c: CalloutId, s: StreamId)
    requires c !in callouts
    ensures CalloutsOf(callouts[c := s], s) == CalloutsOf(callouts, s) + {c}
  {
  }

  lemma {:induction false} CallsOutstanding(callouts: map<CalloutId, StreamId>, next: CalloutId, s: StreamId, n: nat)
    requires forall c :: c in callouts ==> c < next && callouts[c] != s
    ensures |CalloutsOf(Calls(callouts, next, s, n), s)| == n
  {
    if n == 0 {
      assert CalloutsOf(callouts, s) == {};
    } else {
      CallsOutstanding(callouts, next, s, n - 1);
      AddCall(Calls(callouts, next, s, n - 1), next + n - 1, s);
    }
  }

  lemma DispatchStep(s: State, stream: StreamId, n: nat)
    requires Guarded(s, n) && stream !in s.host.streams
    ensures Guarded(Step(s, ResponseHeaders(stream), n), n)
  {
    var t := Step(s, ResponseHeaders(stream), n);
    CallsOutstanding(s.host.callouts, s.host.nextCallout, stream, n);
    forall x | x in t.host.streams
      ensures StreamOk(t, x, n)
    {
      if x != stream {
        assert StreamOk(s, x, n);
        assert Outstanding(t.host, x) == Outstanding(s.host, x);
      }
    }
  }

  lemma CallbackStep(s: State, c: CalloutId, n: nat)
    requires Guarded(s, n) && Enabled(s, Callback(c))
    ensures Guarded(Step(s, Callback(c), n), n)
    ensures var stream := s.host.callouts[c];
            Step(s, Callback(c), n).host.streams[stream].resumes == 1 <==> Outstanding(s.host, stream) == {c}
  {
    var t, stream := Step(s, Callback(c), n), s.host.callouts[c];
    assert StreamOk(s, stream, n);
    assert c in Outstanding(s.host, stream);
    assert Outstanding(t.host, stream) == Outstanding(s.host, stream) - {c};
    forall x | x in t.host.streams
      ensures StreamOk(t, x, n)
    {
      if x != stream {
        assert StreamOk(s, x, n);
        assert Outstanding(t.host, x) == Outstanding(s.host, x);
      }
    }
  }

  lemma {:induction false} RunsAreGuarded(run: seq<Event>, n: nat)
    requires IsRun(run, n)
    ensures Guarded(Exec(run, n), n)
  {
    if run != [] {
      RunsAreGuarded(Front(run), n);
      match Last(run)
      case ResponseHeaders(stream) => DispatchStep(Exec(Front(run), n), stream, n);
      case Callback(c) => CallbackStep(Exec(Front(run), n), c, n);
    }
  }

  /** No callout is ever left without a context to answer to. */
  lemma EveryCalloutCanBeAnswered(run: seq<Event>, n: nat, c: CalloutId)
    requires IsRun(run, n) && c in Exec(run, n).host.callouts
    ensures Enabled(Exec(run, n), Callback(c))
  {
    RunsAreGuarded(run, n);
    assert StreamOk(Exec(run, n), Exec(run, n).host.callouts[c], n);
  }

  /**
   * The barrier, for any number of streams, any callback order and any positive dispatch count:
   * the counter is the number of unanswered callouts, and the stream is held while there is one,
   * and has been resumed and marked exactly once when there is none.
   */
  lemma FanIn(run: seq<Event>, n: nat, x: StreamId)
    requires IsRun(run, n) && n > 0 && x in Exec(run, n).host.streams
    ensures var s := Exec(run, n); var v := s.host.streams[x];
            && x in s.pending && s.pending[x] == |Outstanding(s.host, x)|
            && (v.paused <==> Outstanding(s.host, x) != {})
            && v.resumes == (if Outstanding(s.host, x) == {} then 1 else 0)
            && (Outstanding(s.host, x) != {} ==> v.added == [])
            && (Outstanding(s.host, x) == {} ==> |v.added| == 1 && Reports(v.added[0], n))
  {
    RunsAreGuarded(run, n);
    TotalReports(n);
    assert StreamOk(Exec(run, n), x, n);
  }

  /** A callback resumes its stream exactly when it answers the last outstanding callout. */
  lemma ResumedAtTheLastCallback(run: seq<Event>, n: nat, c: CalloutId)
    requires IsRun(run, n) && Enabled(Exec(run, n), Callback(c))
    ensures var s := Exec(run, n); var t := Step(s, Callback(c), n); var stream := s.host.callouts[c];
            && s.host.streams[stream].paused
            && s.host.streams[stream].resumes == 0
            && t.host.streams[stream].resumes == (if Outstanding(s.host, stream) == {c} then 1 else 0)
            && forall x :: x in s.host.streams && x != stream ==> t.host.streams[x] == s.host.streams[x]
  {
    RunsAreGuarded(run, n);
    var s := Exec(run, n);
    var stream := s.host.callouts[c];
    assert StreamOk(s, stream, n);
    assert c in Outstanding(s.host, stream);
    CallbackStep(s, c, n);
    assert StreamOk(Step(s, Callback(c), n), stream, n);
  }

  /** With a dispatch count of zero the response would never be resumed. */
  lemma NothingDispatchedNothingResumed(run: seq<Event>, x: StreamId)
    requires IsRun(run, 0) && x in Exec(run, 0).host.streams
    ensures Exec(run, 0).host.streams[x].paused && Outstanding(Exec(run, 0).host, x) == {}
  {
    RunsAreGuarded(run, 0);
    assert StreamOk(Exec(run, 0), x, 0);
  }

  // ---------- The code ----------

  class HttpContext {
    const contextID: StreamId
    var pendingDispatchedRequest: int

    constructor (contextID: StreamId)
      ensures this.contextID == contextID && pendingDispatchedRequest == 0
    {
      this.contextID := contextID;
      pendingDispatchedRequest := 0;
    }

    /** OnHttpResponseHeaders: ten callouts. */
    method OnHttpResponseHeaders(host: Host, accepted: nat) returns (panicked: bool)
      requires contextID !in host.streams && pendingDispatchedRequest == 0
      modifies this, host
      ensures panicked <==> accepted < 10
      ensures !panicked ==> host.Seen() == Dispatched(old(host.Seen()), contextID, 10) && pendingDispatchedRequest == 10
      ensures panicked ==> pendingDispatchedRequest == accepted && contextID in host.streams && !host.streams[contextID].paused
    {
      panicked := DispatchCalls(host, accepted, TOTAL_DISPATCH_NUM);
    }

    /** dispatchCallback: the last of the ten answers reports them. */
    method DispatchCallback(host: Host, callout: CalloutId)
      requires callout in host.callouts && host.callouts[callout] == contextID && contextID in host.streams
      modifies this, host
      ensures pendingDispatchedRequest == old(pendingDispatchedRequest) - 1
      ensures host.Seen() == AfterCallback(old(host.Seen()), callout, pendingDispatchedRequest, 10)
      ensures contextID in host.streams
      ensures pendingDispatchedRequest == 0 ==>
                exists h :: Reports(h, 10) && host.streams[contextID].added == old(host.streams)[contextID].added + [h]
    {
      AnswerCall(host, callout, TOTAL_DISPATCH_NUM);
      TotalReports(10);
    }

    /** The dispatch loop for any count; a dispatch that fails panics, after `accepted` successful ones. */
    method DispatchCalls(host: Host, accepted: nat, n: nat) returns (panicked: bool)
      requires contextID !in host.streams && pendingDispatchedRequest == 0
      modifies this, host
      ensures panicked <==> accepted < n
      ensures !panicked ==> host.Seen() == Dispatched(old(host.Seen()), contextID, n) && pendingDispatchedRequest == n
      ensures panicked ==> pendingDispatchedRequest == accepted && contextID in host.streams && !host.streams[contextID].paused
    {
      host.Open(contextID);
      ghost var v := old(host.Seen());
      for i := 0 to n
        invariant i <= accepted
        invariant pendingDispatchedRequest == i && host.effective == contextID
        invariant contextID in host.streams && !host.streams[contextID].paused
        invariant host.Seen() == Dispatched(v, contextID, i).(streams := Opened(v, contextID, false).streams)
      {
        if i == accepted {
          return true;
        }
        var _ := host.DispatchHttpCall();
        pendingDispatchedRequest := pendingDispatchedRequest + 1;
      }
      host.Pause(contextID);
      panicked := false;
    }

    /** The callback for any count, run by the host when a callout of this context is answered. */
    method AnswerCall(host: Host, callout: CalloutId, n: nat)
      requires callout in host.callouts && host.callouts[callout] == contextID && contextID in host.streams
      modifies this, host
      ensures pendingDispatchedRequest == old(pendingDispatchedRequest) - 1
      ensures host.Seen() == AfterCallback(old(host.Seen()), callout, pendingDispatchedRequest, n)
    {
      host.Deliver(callout);
      pendingDispatchedRequest := pendingDispatchedRequest - 1;
      if pendingDispatchedRequest == 0 {
        host.AddHttpResponseHeader(TotalDispatched(n));
        host.Resume();
      }
    }
  }

  /** Each stream has its own context, whose counter is the one in the state. */
  ghost predicate Contexts(contexts: map<StreamId, HttpContext>, pending: map<StreamId, int>)
    reads contexts.Values
  {
    && contexts.Keys == pending.Keys
    && forall x :: x in contexts ==> contexts[x].contextID == x && contexts[x].pendingDispatchedRequest == pending[x]
  }

  /** The host's event loop over the code: every run of events ends in the state that the run describes. */
  method HandleEvents(run: seq<Event>, n: nat) returns (host: Host, contexts: map<StreamId, HttpContext>)
    requires IsRun(run, n)
    ensures fresh(host) && forall x :: x in contexts ==> fresh(contexts[x])
    ensures host.Seen() == Exec(run, n).host
    ensures Contexts(contexts, Exec(run, n).pending)
    decreases |run|
  {
    if run == [] {
      host := new Host();
      contexts := map[];
    } else {
      host, contexts := HandleEvents(Front(run), n);
      match Last(run)
      case ResponseHeaders(stream) =>
        var ctx := new HttpContext(stream);
        var _ := ctx.DispatchCalls(host, n, n);
        contexts := contexts[stream := ctx];
      case Callback(c) =>
        contexts[host.callouts[c]].AnswerCall(host, c, n);
    }
  }
}
