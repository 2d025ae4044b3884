/** FNV-1a with 32 bits, as section 2 of draft-eastlake-fnv describes it. */
module Fnv {
  import opened Common

  const OFFSET_BASIS: bv32 := 2166136261
  const PRIME: bv32 := 16777619

  function Mix(h: bv32, b: bv8): bv32 {
    (h ^ (b as bv32)) * PRIME
  }

  function Hash(data: seq<bv8>): bv32 {
    if data == [] then OFFSET_BASIS else Mix(Hash(Front(data)), Last(data))
  }

  method Sum32(data: seq<bv8>) returns (h: bv32)
    ensures h == Hash(data)
  {
    h := OFFSET_BASIS;
    for i := 0 to |data|
      invariant h == Hash(data[..i])
    {
      assert Front(data[..i + 1]) == data[..i];
      h := Mix(h, data[i]);
    }
    assert data[..|data|] == data;
  }

  lemma HashSnoc(data: seq<bv8>, b: bv8, before: bv32, after: bv32)
    requires Hash(data) == before && Mix(before, b) == after
    ensures Hash(data + [b]) == after
  {
    assert Front(data + [b]) == data;
  }

  /** The answers that draft-eastlake-fnv lists for the empty text, "a" and "foobar". */
  lemma KnownAnswers()
    ensures Hash([]) == 0x811c9dc5
    ensures Hash([0x61]) == 0xe40c292c
    ensures Hash([0x66, 0x6f, 0x6f, 0x62, 0x61, 0x72]) == 0xbf9cf968
  {
    var foo: seq<bv8> := [] + [0x66] + [0x6f] + [0x6f];
    assert [] + [0x61 as bv8] == [0x61];
    assert foo + [0x62] + [0x61] + [0x72] == [0x66, 0x6f, 0x6f, 0x62, 0x61, 0x72];
    HashSnoc([], 0x61, 0x811c9dc5, 0xe40c292c);
    HashSnoc([], 0x66, 0x811c9dc5, 0xe30c2799);
    HashSnoc([] + [0x66], 0x6f, 0xe30c2799, 0x6222e842);
    HashSnoc([] + [0x66] + [0x6f], 0x6f, 0x6222e842, 0xa9f37ed7);
    HashSnoc(foo, 0x62, 0xa9f37ed7, 0x3f5076ef);
    HashSnoc(foo + [0x62], 0x61, 0x3f5076ef, 0x39aaa18a);
    HashSnoc(foo + [0x62] + [0x61], 0x72, 0x39aaa18a, 0xbf9cf968);
  }

  predicate IsOdd(b: bv8) {
    b & 1 == 1
  }

  function OddBytes(data: seq<bv8>): nat {
    if data == [] then 0 else OddBytes(Front(data)) + if IsOdd(Last(data)) then 1 else 0
  }

  /** The prime is odd, so a round flips the lowest bit exactly for an odd byte. */
  lemma MixFlipsLowestBit(h: bv32, b: bv8)
    ensures Mix(h, b) & 1 == (h & 1) ^ ((b as bv32) & 1)
    ensures IsOdd(b) <==> (b as bv32) & 1 == 1
  {
  }

  lemma LowestBit(h: bv32)
    ensures h % 2 == h & 1
    ensures h & 1 == 0 || h & 1 == 1
  {
  }

  /** The hash is even exactly when the data has an odd number of odd bytes. */
  lemma {:induction false} HashParity(data: seq<bv8>)
    ensures Hash(data) % 2 == 0 <==> OddBytes(data) % 2 == 1
  {
    LowestBit(Hash(data));
    if data != [] {
      HashParity(Front(data));
      LowestBit(Hash(Front(data)));
      MixFlipsLowestBit(Hash(Front(data)), Last(data));
    }
  }
}

/** The gate (istio/envoy/wasm-go/http_auth_random): a request waits for a callout whose body decides. */
module HttpAuthRandom {
  import opened Common
  import opened ProxyHost
  import opened Fnv

  const FORBIDDEN := Reply(403, [Header("powered-by", "proxy-wasm-go-sdk!!")], "access forbidden")

  /** What the host hands to the callback, and whether it accepts a local reply. */
  datatype Response = Response(headersOk: bool, body: Option<seq<bv8>>, replyOk: bool)

  datatype Event =
    | Request(stream: StreamId, headersOk: bool, dispatchOk: bool)
    | Callback(callout: CalloutId, response: Response)

  predicate Enabled(v: View, e: Event) {
    match e
    case Request(stream, _, _) => stream !in v.streams
    case Callback(c, _) => c in v.callouts && v.callouts[c] in v.streams
  }

  datatype Verdict = Hold | Admit | Deny

  /** The decision, without the hash: deny only a readable body with an even number of odd bytes. */
  function Decide(r: Response): Verdict {
    if !r.headersOk then Hold
    else if r.body.Some? && OddBytes(r.body.value) % 2 == 0 && r.replyOk then Deny
    else Admit
  }

  function AfterRequest(v: View, stream: StreamId, dispatched: bool): View {
    if dispatched
    then Opened(v, stream, true).(callouts := v.callouts[v.nextCallout := stream], nextCallout := v.nextCallout + 1)
    else Opened(v, stream, false)
  }

  function Step(v: View, e: Event): View
    requires Enabled(v, e)
  {
    match e
    case Request(stream, headersOk, dispatchOk) => AfterRequest(v, stream, headersOk && dispatchOk)
    case Callback(c, r) =>
      var w, stream := v.(callouts := v.callouts - {c}), v.callouts[c];
      match Decide(r)
      case Hold => w
      case Admit => Resumed(w, stream)
      case Deny => Answered(w, stream, FORBIDDEN)
  }

  predicate IsRun(run: seq<Event>)
    decreases |run|, 0
  {
    run == [] || (IsRun(Front(run)) && Enabled(Exec(Front(run)), Last(run)))
  }

  function Exec(run: seq<Event>): View
    requires IsRun(run)
    decreases |run|, 1
  {
    if run == [] then IDLE else Step(Exec(Front(run)), Last(run))
  }

  /** What has happened to a stream so far, read off the run. */
  datatype History = NotSeen | NotDispatched | Waiting | CalledBack(response: Response)

  function HistoryOf(run: seq<Event>, s: StreamId): History
    requires IsRun(run)
  {
    if run == [] then NotSeen
    else
      match Last(run)
      case Request(stream, headersOk, dispatchOk) =>
        if stream == s then if headersOk && dispatchOk then Waiting else NotDispatched
        else HistoryOf(Front(run), s)
      case Callback(c, r) =>
        if Exec(Front(run)).callouts[c] == s then CalledBack(r) else HistoryOf(Front(run), s)
  }

  /** What a stream must look like, given its history. */
  function Expected(h: History): Stream
    requires !h.NotSeen?
  {
    match h
    case NotDispatched => Stream(false, 0, [], [])
    case Waiting => Stream(true, 0, [], [])
    case CalledBack(r) =>
      match Decide(r)
      case Hold => Stream(true, 0, [], [])
      case Admit => Stream(false, 1, [], [])
      case Deny => Stream(true, 0, [FORBIDDEN], [])
  }

  ghost predicate StreamOk(v: View, s: StreamId, h: History) {
    && (s in v.streams <==> !h.NotSeen?)
    && (s in v.streams ==> v.streams[s] == Expected(h))
    && (if h.Waiting? then exists c :: Outstanding(v, s) == {c} else Outstanding(v, s) == {})
  }

  lemma OtherStreamsKeep(v: View, e: Event, s: StreamId, h: History)
    requires Sound(v) && Enabled(v, e) && StreamOk(v, s, h)
    requires e.Request? ==> e.stream != s
    requires e.Callback? ==> v.callouts[e.callout] != s
    ensures StreamOk(Step(v, e), s, h)
  {
    assert Outstanding(Step(v, e), s) == Outstanding(v, s);
  }

  lemma RequestOpens(v: View, e: Event)
    requires e.Request? && Sound(v) && Enabled(v, e) && StreamOk(v, e.stream, NotSeen)
    ensures StreamOk(Step(v, e), e.stream, if e.headersOk && e.dispatchOk then Waiting else NotDispatched)
  {
    var w := Step(v, e);
    if e.headersOk && e.dispatchOk {
      assert Outstanding(w, e.stream) == {v.nextCallout};
    } else {
      assert Outstanding(w, e.stream) == {};
    }
  }

  lemma CallbackDecides(v: View, e: Event, h: History)
    requires e.Callback? && Sound(v) && Enabled(v, e) && StreamOk(v, v.callouts[e.callout], h)
    ensures h.Waiting?
    ensures StreamOk(Step(v, e), v.callouts[e.callout], CalledBack(e.response))
  {
    var w, s := Step(v, e), v.callouts[e.callout];
    assert e.callout in Outstanding(v, s);
    assert Outstanding(w, s) == Outstanding(v, s) - {e.callout};
  }

  /**
   * The gate over any number of concurrent streams: a dispatched stream is held, with one callout
   * outstanding, until its own callback; then it is resumed or answered 403, never both, unless the
   * response headers could not be read.
   */
  lemma {:induction false} GateOutcome(run: seq<Event>, s: StreamId)
    requires IsRun(run)
    ensures Sound(Exec(run)) && StreamOk(Exec(run), s, HistoryOf(run, s))
  {
    if run == [] {
      assert Outstanding(IDLE, s) == {};
    } else {
      var v, e, h := Exec(Front(run)), Last(run), HistoryOf(Front(run), s);
      GateOutcome(Front(run), s);
      if e.Request? && e.stream == s {
        RequestOpens(v, e);
      } else if e.Callback? && v.callouts[e.callout] == s {
        CallbackDecides(v, e, h);
      } else {
        OtherStreamsKeep(v, e, s, h);
      }
    }
  }

  /** A stream is answered 403 exactly when its callout returned a readable body with an odd hash. */
  lemma DeniedIff(run: seq<Event>, s: StreamId)
    requires IsRun(run) && s in Exec(run).streams
    ensures var x := Exec(run).streams[s]; var h := HistoryOf(run, s);
            && x.resumes + |x.replies| <= 1
            && (x.replies != [] <==>
                h.CalledBack? && h.response.headersOk && h.response.body.Some? && h.response.replyOk &&
                Hash(h.response.body.value) % 2 == 1)
            && (x.replies != [] ==>
                |x.replies| == 1 &&
                x.replies[0] == Reply(403, [Header("powered-by", "proxy-wasm-go-sdk!!")], "access forbidden"))
            && (x.resumes == 1 <==> h.CalledBack? && h.response.headersOk && x.replies == [])
            && (x.paused <==> h.Waiting? || (h.CalledBack? && !h.response.headersOk) || x.replies != [])
  {
    GateOutcome(run, s);
    var h := HistoryOf(run, s);
    if h.CalledBack? && h.response.body.Some? {
      HashParity(h.response.body.value);
      LowestBit(Hash(h.response.body.value));
    }
  }

  // ---------- The code ----------

  method OnHttpRequestHeaders(host: Host, contextID: StreamId, headersOk: bool, dispatchOk: bool)
    requires contextID !in host.streams
    modifies host
    ensures host.Seen() == Step(old(host.Seen()), Request(contextID, headersOk, dispatchOk))
  {
    host.Open(contextID);
    if !headersOk {
      return;
    }
    if !dispatchOk {
      return;
    }
    var _ := host.DispatchHttpCall();
    host.Pause(contextID);
  }

  /** httpCallResponseCallback decides by the hash; the step it refines decides by counting. */
  method HttpCallResponseCallback(host: Host, callout: CalloutId, r: Response)
    requires Enabled(host.Seen(), Callback(callout, r))
    modifies host
    ensures host.Seen() == Step(old(host.Seen()), Callback(callout, r))
    ensures var s := old(host.callouts)[callout];
            && s in host.streams
            && host.streams[s].replies == old(host.streams)[s].replies +
               if r.headersOk && r.body.Some? && Hash(r.body.value) % 2 == 1 && r.replyOk
               then [Reply(403, [Header("powered-by", "proxy-wasm-go-sdk!!")], "access forbidden")] else []
  {
    host.Deliver(callout);
    if !r.headersOk {
      return;
    }
    if r.body.None? {
      host.Resume();
      return;
    }
    var sum := Sum32(r.body.value);
    HashParity(r.body.value);
    LowestBit(sum);
    if sum % 2 == 0 {
      host.Resume();
      return;
    }
    if r.replyOk {
      host.SendHttpResponse(FORBIDDEN);
    } else {
      host.Resume();
    }
  }

  /** The host's event loop over the code: every run of events ends in the state that the run describes. */
  method HandleEvents(run: seq<Event>) returns (host: Host)
    requires IsRun(run)
    ensures fresh(host) && host.Seen() == Exec(run)
    ensures forall s :: StreamOk(host.Seen(), s, HistoryOf(run, s))
    decreases |run|
  {
    if run == [] {
      host := new Host();
    } else {
      host := HandleEvents(Front(run));
      match Last(run)
      case Request(stream, headersOk, dispatchOk) => OnHttpRequestHeaders(host, stream, headersOk, dispatchOk);
      case Callback(callout, response) => HttpCallResponseCallback(host, callout, response);
    }
    forall s
      ensures StreamOk(Exec(run), s, HistoryOf(run, s))
    {
      GateOutcome(run, s);
    }
  }
}
