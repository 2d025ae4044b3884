/** The text a sender enqueues for a header (istio/envoy/wasm-go/shared_queue/sender). */
module HeaderMessage {
  import opened Common
  import opened Text

  const HEAD := "{\"key\": \""
  const MIDDLE := "\",\"value\": \""
  const TAIL := "\"}"

  function Format(h: Header): string {
    Between(HEAD, h.name, MIDDLE, h.value, TAIL)
  }

  function Between(head: string, name: string, middle: string, value: string, tail: string): string {
    head + name + middle + value + tail
  }

  /** Reads a message back: the name ends at the first double quote, the value before the closing characters. */
  function Parse(text: string): Option<Header> {
    ParseBetween(HEAD, MIDDLE, TAIL, text)
  }

  function ParseBetween(head: string, middle: string, tail: string, text: string): Option<Header> {
    if !(head <= text) then None
    else
      var rest := text[|head|..];
      match IndexOf(rest, "\"")
      case None => None
      case Some(i) =>
        var after := rest[i..];
        if middle <= after && |middle| + |tail| <= |after|
        then Some(Header(rest[..i], after[|middle|..|after| - |tail|]))
        else None
  }

  /** The text of a message, spelled out. */
  lemma FormatText(h: Header)
    ensures Format(h) == "{\"key\": \"" + h.name + "\",\"value\": \"" + h.value + "\"}"
  {
  }

  lemma QuoteAfterName(name: string, after: string)
    requires !Contains(name, "\"") && "\"" <= after
    ensures IndexOf(name + after, "\"") == Some(|name|)
  {
    var text := name + after;
    forall j | 0 <= j < |name|
      ensures !OccursAt(text, "\"", j)
    {
      assert text[j..j + 1] == name[j..j + 1];
      assert !OccursAt(name, "\"", j);
    }
    assert text[|name|..|name| + 1] == "\"";
    FoundFirst(text, "\"", |name|);
  }

  lemma ParseBetweenInverts(head: string, name: string, middle: string, value: string, tail: string)
    requires !Contains(name, "\"") && "\"" <= middle
    ensures ParseBetween(head, middle, tail, Between(head, name, middle, value, tail)) == Some(Header(name, value))
  {
    var after := middle + (value + tail);
    var rest := name + after;
    var text := Between(head, name, middle, value, tail);
    assert text == head + rest;
    assert text[|head|..] == rest;
    QuoteAfterName(name, after);
    assert rest[|name|..] == after && rest[..|name|] == name;
    assert after[|middle|..|after| - |tail|] == value;
  }

  lemma ParseFormat(h: Header)
    requires !Contains(h.name, "\"")
    ensures Parse(Format(h)) == Some(h)
  {
    ParseBetweenInverts(HEAD, h.name, MIDDLE, h.value, TAIL);
  }

  lemma ParsedNameHasNoQuote(text: string)
    requires Parse(text).Some?
    ensures !Contains(Parse(text).value.name, "\"")
  {
    NothingBeforeFirst(text[|HEAD|..], "\"");
  }

  /** A message can be read back exactly when the header name holds no double quote; the value may hold any. */
  lemma MessageRoundTrip(h: Header)
    ensures Parse(Format(h)) == Some(h) <==> !Contains(h.name, "\"")
  {
    if !Contains(h.name, "\"") {
      ParseFormat(h);
    } else if Parse(Format(h)) == Some(h) {
      ParsedNameHasNoQuote(Format(h));
    }
  }

  /** Different headers with proper names never produce the same message. */
  lemma FormatIsInjective(h: Header, h': Header)
    requires !Contains(h.name, "\"") && !Contains(h'.name, "\"")
    requires Format(h) == Format(h')
    ensures h == h'
  {
    ParseFormat(h);
    ParseFormat(h');
  }

  /** With a quote in the name two headers can share a message. */
  lemma QuotedNamesCollide()
    ensures exists h, h' :: h != h' && Format(h) == Format(h')
  {
    var h := Header("a" + MIDDLE + "b", "c");
    var h' := Header("a", "b" + MIDDLE + "c");
    assert Format(h) == HEAD + "a" + MIDDLE + "b" + MIDDLE + "c" + TAIL;
    assert Format(h') == HEAD + "a" + MIDDLE + "b" + MIDDLE + "c" + TAIL;
    assert |h.value| != |h'.value|;
  }
}

/**
 * One shared queue with any number of sending streams and its receiver. Every enqueue
 * raises one notification; further notifications may be raised without cause.
 */
module SharedQueue {
  import opened Common
  import opened Text
  import opened HeaderMessage

  datatype Item = Item(stream: StreamId, text: string)

  /** A sending stream: its headers, how many it has tried, and which of those the host accepted. */
  datatype Sender = Sender(headers: seq<Header>, tried: nat, accepted: seq<nat>)

  datatype State = State(
    senders: map<StreamId, Sender>,
    queue: seq<Item>,
    enqueued: seq<Item>,
    dequeued: seq<Item>,
    notifications: nat,
    spurious: nat,
    empties: nat,
    errors: nat)

  datatype Event =
    | Begin(stream: StreamId, headers: seq<Header>)
    | Enqueue(stream: StreamId, ok: bool)
    | Notify
    | Ready(fails: bool)

  const INIT := State(map[], [], [], [], 0, 0, 0, 0)

  predicate Enabled(s: State, e: Event) {
    match e
    case Begin(stream, _) => stream !in s.senders
    case Enqueue(stream, _) => stream in s.senders && s.senders[stream].tried < |s.senders[stream].headers|
    case Notify => true
    case Ready(_) => s.notifications > 0
  }

  function Step(s: State, e: Event): State
    requires Enabled(s, e)
  {
    match e
    case Begin(stream, headers) => s.(senders := s.senders[stream := Sender(headers, 0, [])])
    case Enqueue(stream, ok) =>
      var from := s.senders[stream];
      if ok then
        var item := Item(stream, Format(from.headers[from.tried]));
        s.(senders := s.senders[stream := Sender(from.headers, from.tried + 1, from.accepted + [from.tried])],
           queue := s.queue + [item], enqueued := s.enqueued + [item], notifications := s.notifications + 1)
      else
        s.(senders := s.senders[stream := from.(tried := from.tried + 1)])
    case Notify => s.(notifications := s.notifications + 1, spurious := s.spurious + 1)
    case Ready(fails) =>
      var t := s.(notifications := s.notifications - 1);
      if fails then t.(errors := s.errors + 1)
      else if s.queue == [] then t.(empties := s.empties + 1)
      else t.(queue := s.queue[1..], dequeued := s.dequeued + [s.queue[0]])
  }

  predicate IsRun(run: seq<Event>)
    decreases |run|, 0
  {
    run == [] || (IsRun(Front(run)) && Enabled(Exec(Front(run)), Last(run)))
  }

  function Exec(run: seq<Event>): State
    requires IsRun(run)
    decreases |run|, 1
  {
    if run == [] then INIT else Step(Exec(Front(run)), Last(run))
  }

  // ---------- Order ----------

  /** The messages of one stream in a log, in the order of the log. */
  function OfStream(log: seq<Item>, stream: StreamId): seq<string> {
    if log == [] then []
    else OfStream(Front(log), stream) + if Last(log).stream == stream then [Last(log).text] else []
  }

  predicate Increasing(indices: seq<nat>, bound: nat) {
    && (forall i :: 0 <= i < |indices| ==> indices[i] < bound)
    && (forall i, j :: 0 <= i < j < |indices| ==> indices[i] < indices[j])
  }

  /** The headers at the given positions. */
  function Chosen(headers: seq<Header>, at: seq<nat>): seq<Header>
    requires forall i :: 0 <= i < |at| ==> at[i] < |headers|
  {
    seq(|at|, i requires 0 <= i < |at| => headers[at[i]])
  }

  function Formats(headers: seq<Header>): seq<string> {
    seq(|headers|, i requires 0 <= i < |headers| => Format(headers[i]))
  }

  ghost predicate SenderOk(x: Sender, sent: seq<string>) {
    && x.tried <= |x.headers|
    && Increasing(x.accepted, x.tried)
    && sent == Formats(Chosen(x.headers, x.accepted))
  }

  ghost predicate Ordered(s: State) {
    && s.dequeued + s.queue == s.enqueued
    && forall stream :: StreamOk(s, stream)
  }

  ghost predicate StreamOk(s: State, stream: StreamId) {
    if stream in s.senders then SenderOk(s.senders[stream], OfStream(s.enqueued, stream))
    else OfStream(s.enqueued, stream) == []
  }

  lemma AcceptedStep(x: Sender, sent: seq<string>)
    requires SenderOk(x, sent) && x.tried < |x.headers|
    ensures SenderOk(Sender(x.headers, x.tried + 1, x.accepted + [x.tried]), sent + [Format(x.headers[x.tried])])
  {
    var more := x.accepted + [x.tried];
    assert Chosen(x.headers, more) == Chosen(x.headers, x.accepted) + [x.headers[x.tried]];
  }

  lemma StreamStep(s: State, e: Event, stream: StreamId)
    requires StreamOk(s, stream) && Enabled(s, e)
    ensures StreamOk(Step(s, e), stream)
  {
    var t := Step(s, e);
    if e.Enqueue? && e.ok {
      assert Front(t.enqueued) == s.enqueued;
      if e.stream == stream {
        AcceptedStep(s.senders[stream], OfStream(s.enqueued, stream));
      }
    }
  }

  lemma OrderedStep(s: State, e: Event)
    requires Ordered(s) && Enabled(s, e)
    ensures Ordered(Step(s, e))
  {
    var t := Step(s, e);
    assert t.dequeued + t.queue == t.enqueued by {
      if e.Enqueue? && e.ok {
        assert t.dequeued + t.queue == s.dequeued + s.queue + [Last(t.queue)];
      }
    }
    forall stream
      ensures StreamOk(t, stream)
    {
      StreamStep(s, e, stream);
    }
  }

  /** First in, first out for every interleaving: what was taken followed by what is left is what was put. */
  lemma {:induction false} Fifo(run: seq<Event>)
    requires IsRun(run)
    ensures Ordered(Exec(run))
    ensures Exec(run).dequeued + Exec(run).queue == Exec(run).enqueued
  {
    if run == [] {
      assert forall stream :: StreamOk(INIT, stream);
    } else {
      Fifo(Front(run));
      OrderedStep(Exec(Front(run)), Last(run));
    }
  }

  /** Every message of a stream is the spelled-out text of the header it stands for. */
  lemma MessagesSpelledOut(run: seq<Event>, stream: StreamId, k: nat)
    requires IsRun(run) && stream in Exec(run).senders && k < |Exec(run).senders[stream].accepted|
    ensures var s := Exec(run); var x := s.senders[stream];
            && Increasing(x.accepted, |x.headers|)
            && |OfStream(s.dequeued + s.queue, stream)| == |x.accepted|
            && var h := x.headers[x.accepted[k]];
               OfStream(s.dequeued + s.queue, stream)[k] ==
               "{\"key\": \"" + h.name + "\",\"value\": \"" + h.value + "\"}"
  {
    Fifo(run);
    assert StreamOk(Exec(run), stream);
    FormatText(Exec(run).senders[stream].headers[Exec(run).senders[stream].accepted[k]]);
  }

  function Parsed(texts: seq<string>): seq<Option<Header>> {
    seq(|texts|, i requires 0 <= i < |texts| => Parse(texts[i]))
  }

  /** What a receiver can read of one stream are the headers it managed to send, in their order. */
  lemma ReceiverSeesHeaders(run: seq<Event>, stream: StreamId)
    requires IsRun(run) && stream in Exec(run).senders
    requires forall i :: 0 <= i < |Exec(run).senders[stream].headers| ==>
               !Contains(Exec(run).senders[stream].headers[i].name, "\"")
    ensures var s := Exec(run); var x := s.senders[stream];
            && Increasing(x.accepted, |x.headers|)
            && Parsed(OfStream(s.dequeued + s.queue, stream)) ==
               seq(|x.accepted|, i requires 0 <= i < |x.accepted| => Some(x.headers[x.accepted[i]]))
  {
    Fifo(run);
    var s := Exec(run);
    var x := s.senders[stream];
    assert StreamOk(s, stream);
    forall i | 0 <= i < |x.accepted|
      ensures Parse(OfStream(s.enqueued, stream)[i]) == Some(x.headers[x.accepted[i]])
    {
      ParseFormat(x.headers[x.accepted[i]]);
    }
  }

  // ---------- Draining ----------

  /** Items, notifications and the results of OnQueueReady always balance. */
  lemma {:induction false} Balance(run: seq<Event>)
    requires IsRun(run)
    ensures var s := Exec(run);
            && |s.queue| + s.spurious == s.notifications + s.errors + s.empties
            && s.empties <= s.spurious
  {
    if run != [] {
      Balance(Front(run));
    }
  }

  /** When all notifications are handled, no more items are left than dequeues failed for. */
  lemma Drained(run: seq<Event>)
    requires IsRun(run) && Exec(run).notifications == 0
    ensures |Exec(run).queue| <= Exec(run).errors
    ensures Exec(run).errors == 0 ==> Exec(run).queue == [] && Exec(run).dequeued == Exec(run).enqueued
    ensures Exec(run).spurious == 0 ==> (Exec(run).queue == [] <==> Exec(run).errors == 0)
  {
    Balance(run);
    Fifo(run);
  }

  // ---------- The code ----------

  /** The host's queue, with everybody who uses it. */
  class Queue {
    var state: State
    ghost var run: seq<Event>

    ghost predicate Valid()
      reads this
    {
      IsRun(run) && Exec(run) == state
    }

    constructor ()
      ensures Valid() && run == []
    {
      state, run := INIT, [];
    }

    method Do(e: Event)
      requires Valid() && Enabled(state, e)
      modifies this
      ensures Valid() && run == old(run) + [e] && state == Step(old(state), e)
    {
      state := Step(state, e);
      run := run + [e];
      assert Front(run) == old(run);
    }

    /** Other streams and the receiver take the scheduled steps that are possible. */
    method Others(me: StreamId, schedule: seq<Event>)
      requires Valid() && me in state.senders
      modifies this
      ensures Valid() && old(run) <= run
      ensures me in state.senders && state.senders[me] == old(state).senders[me]
    {
      for i := 0 to |schedule|
        invariant Valid() && old(run) <= run
        invariant me in state.senders && state.senders[me] == old(state).senders[me]
      {
        var e := schedule[i];
        if Enabled(state, e) && !((e.Begin? || e.Enqueue?) && e.stream == me) {
          Do(e);
        }
      }
    }
  }

  /** The positions of the headers for which the host accepted the message. */
  function Positions(oks: seq<bool>): seq<nat> {
    if oks == [] then [] else Positions(Front(oks)) + if Last(oks) then [|oks| - 1] else []
  }

  lemma {:induction false} AllPositions(oks: seq<bool>)
    requires forall i :: 0 <= i < |oks| ==> oks[i]
    ensures |Positions(oks)| == |oks| && forall i :: 0 <= i < |oks| ==> Positions(oks)[i] == i
  {
    if oks != [] {
      AllPositions(Front(oks));
    }
  }

  /** When the host accepts every message, a stream's messages are all its headers in order. */
  lemma NothingLost(x: Sender, sent: seq<string>, oks: seq<bool>)
    requires SenderOk(x, sent) && x.accepted == Positions(oks)
    requires |oks| == |x.headers| && forall i :: 0 <= i < |oks| ==> oks[i]
    ensures sent == Formats(x.headers)
  {
    AllPositions(oks);
    assert Chosen(x.headers, x.accepted) == x.headers;
  }

  /** A host read of the headers may fail; the loop then runs over nothing. */
  function OrEmpty(headers: Option<seq<Header>>): seq<Header> {
    if headers.Some? then headers.value else []
  }

  class SenderHttpContext {
    const contextID: StreamId
    const requestHeadersQueue: Queue
    const responseHeadersQueue: Queue

    constructor (contextID: StreamId, requestHeadersQueue: Queue, responseHeadersQueue: Queue)
      ensures this.contextID == contextID
      ensures this.requestHeadersQueue == requestHeadersQueue && this.responseHeadersQueue == responseHeadersQueue
    {
      this.contextID := contextID;
      this.requestHeadersQueue := requestHeadersQueue;
      this.responseHeadersQueue := responseHeadersQueue;
    }

    /** The loop that both handlers run, against every schedule of the other users of the queue. */
    method EnqueueHeaders(queue: Queue, read: Option<seq<Header>>, oks: seq<bool>, schedule: seq<seq<Event>>)
      requires queue.Valid() && contextID !in queue.state.senders
      requires |oks| == |schedule| == |OrEmpty(read)|
      modifies queue
      ensures queue.Valid() && old(queue.run) <= queue.run
      ensures contextID in queue.state.senders
      ensures queue.state.senders[contextID] == Sender(OrEmpty(read), |OrEmpty(read)|, Positions(oks))
    {
      var headers := OrEmpty(read);
      queue.Do(Begin(contextID, headers));
      for i := 0 to |headers|
        invariant queue.Valid() && old(queue.run) <= queue.run
        invariant contextID in queue.state.senders
        invariant queue.state.senders[contextID] == Sender(headers, i, Positions(oks[..i]))
      {
        queue.Others(contextID, schedule[i]);
        queue.Do(Enqueue(contextID, oks[i]));
        assert Front(oks[..i + 1]) == oks[..i];
      }
      assert oks[..|headers|] == oks;
    }

    method OnHttpRequestHeaders(read: Option<seq<Header>>, oks: seq<bool>, schedule: seq<seq<Event>>)
      requires requestHeadersQueue.Valid() && contextID !in requestHeadersQueue.state.senders
      requires |oks| == |schedule| == |OrEmpty(read)|
      modifies requestHeadersQueue
      ensures requestHeadersQueue.Valid() && old(requestHeadersQueue.run) <= requestHeadersQueue.run
      ensures var s := requestHeadersQueue.state;
              && contextID in s.senders
              && s.senders[contextID] == Sender(OrEmpty(read), |OrEmpty(read)|, Positions(oks))
              && SenderOk(s.senders[contextID], OfStream(s.dequeued + s.queue, contextID))
    {
      EnqueueHeaders(requestHeadersQueue, read, oks, schedule);
      Fifo(requestHeadersQueue.run);
      assert StreamOk(requestHeadersQueue.state, contextID);
    }

    method OnHttpResponseHeaders(read: Option<seq<Header>>, oks: seq<bool>, schedule: seq<seq<Event>>)
      requires responseHeadersQueue.Valid() && contextID !in responseHeadersQueue.state.senders
      requires |oks| == |schedule| == |OrEmpty(read)|
      modifies responseHeadersQueue
      ensures responseHeadersQueue.Valid() && old(responseHeadersQueue.run) <= responseHeadersQueue.run
      ensures var s := responseHeadersQueue.state;
              && contextID in s.senders
              && s.senders[contextID] == Sender(OrEmpty(read), |OrEmpty(read)|, Positions(oks))
              && SenderOk(s.senders[contextID], OfStream(s.dequeued + s.queue, contextID))
    {
      EnqueueHeaders(responseHeadersQueue, read, oks, schedule);
      Fifo(responseHeadersQueue.run);
      assert StreamOk(responseHeadersQueue.state, contextID);
    }
  }

  /** OnQueueReady of the receiver: takes at most one item, and the oldest one. */
  method OnQueueReady(queue: Queue, fails: bool) returns (logged: Option<string>)
    requires queue.Valid() && queue.state.notifications > 0
    modifies queue
    ensures queue.Valid() && queue.run == old(queue.run) + [Ready(fails)]
    ensures fails || old(queue.state).queue == [] ==>
              logged.None? && queue.state.queue == old(queue.state).queue
    ensures !fails && old(queue.state).queue != [] ==>
              && logged == Some(old(queue.state).queue[0].text)
              && old(queue.state).queue == [old(queue.state).queue[0]] + queue.state.queue
  {
    logged := if fails || queue.state.queue == [] then None else Some(queue.state.queue[0].text);
    queue.Do(Ready(fails));
  }
}
