/** Body buffering and rewriting (istio/envoy/wasm-go/http_body). */
module HttpBody {
  import opened Common

  type Headers = seq<Header>

  const CONTENT_LENGTH := "content-length"

  const REFUSAL := LocalReply(400, "content must be provided")

  const APPENDED := "[this is appended body]"
  const PREPENDED := "[this is prepended body]"
  const REPLACED := "[this is replaced body]"

  // ---------- Header maps ----------

  function Lookup(hs: Headers, name: string): Option<string> {
    if hs == [] then None
    else if hs[0].name == name then Some(hs[0].value)
    else Lookup(hs[1..], name)
  }

  function Remove(hs: Headers, name: string): Headers {
    if hs == [] then []
    else if hs[0].name == name then Remove(hs[1..], name)
    else [hs[0]] + Remove(hs[1..], name)
  }

  /** A lookup finds the first header of the name. */
  lemma {:induction false} LookupFindsFirst(hs: Headers, name: string) returns (i: nat)
    ensures Lookup(hs, name).None? ==> forall j :: 0 <= j < |hs| ==> hs[j].name != name
    ensures Lookup(hs, name).Some? ==>
              && i < |hs| && hs[i] == Header(name, Lookup(hs, name).value)
              && forall j :: 0 <= j < i ==> hs[j].name != name
  {
    i := 0;
    if hs != [] && hs[0].name != name {
      i := LookupFindsFirst(hs[1..], name);
      assert forall j :: 0 < j < |hs| ==> hs[j] == hs[1..][j - 1];
      i := i + 1;
    }
  }

  lemma {:induction false} RemoveLookup(hs: Headers, name: string, other: string)
    ensures Lookup(Remove(hs, name), other) == if other == name then None else Lookup(hs, other)
  {
    if hs != [] {
      RemoveLookup(hs[1..], name, other);
      if hs[0].name != name {
        assert Remove(hs, name)[1..] == Remove(hs[1..], name);
      }
    }
  }

  // ---------- One direction of a stream ----------

  /** What the host holds back, what it has passed on, and what the filter has logged. */
  datatype Direction = Direction(headers: Headers, buffer: string, released: string, logged: Option<string>)

  const NO_DIRECTION := Direction([], "", "", None)

  /** The host answers a read with at most what is buffered. */
  function Clamp(buffer: string, max: nat): string {
    if max <= |buffer| then buffer[..max] else buffer
  }

  function Release(d: Direction): Direction {
    d.(released := d.released + d.buffer, buffer := "")
  }

  function Rewrite(op: string, body: string): string {
    if op == "append" then body + APPENDED
    else if op == "prepend" then PREPENDED + body
    else if op == "replace" then REPLACED
    else body
  }

  /** One chunk of a body. The flags say whether the host lets the filter read and edit the buffer. */
  datatype Chunk = Chunk(data: string, last: bool, readOk: bool, editOk: bool)

  /** The edit at the end of a body. */
  function Edited(d: Direction, op: string, size: nat, c: Chunk): Direction {
    if !c.readOk then d
    else
      var r := d.(logged := Some(Clamp(d.buffer, size)));
      if c.editOk then r.(buffer := Rewrite(op, d.buffer)) else r
  }

  /** A chunk in the direction that the filter rewrites: held back until the last one. */
  function Hold(d: Direction, op: string, size: nat, c: Chunk): Direction {
    var full := d.(buffer := d.buffer + c.data);
    if c.last then Release(Edited(full, op, size, c)) else full
  }

  /** A chunk in the other direction. */
  function Pass(d: Direction, c: Chunk): Direction {
    Release(d.(buffer := d.buffer + c.data))
  }

  // ---------- A stream ----------

  /** A reply that the filter sends instead of forwarding. */
  datatype LocalReply = LocalReply(status: nat, body: string)

  datatype Context = Context(modifyResponse: bool, bufferOperation: string, totalRequestBodySize: nat, totalResponseBodySize: nat)

  datatype Phase = Waiting | Open | Ended

  datatype State = State(
    ctx: Context,
    request: Direction,
    response: Direction,
    reply: Option<LocalReply>,
    requestPhase: Phase,
    responsePhase: Phase)

  datatype Event =
    | RequestHeaders(headers: Headers)
    | RequestBody(chunk: Chunk)
    | ResponseHeaders(headers: Headers)
    | ResponseBody(chunk: Chunk)

  const INIT := State(Context(false, "", 0, 0), NO_DIRECTION, NO_DIRECTION, None, Waiting, Waiting)

  /** Headers before body in each direction; the directions interleave freely. */
  predicate Enabled(s: State, e: Event) {
    match e
    case RequestHeaders(_) => s.requestPhase.Waiting?
    case RequestBody(_) => s.requestPhase.Open?
    case ResponseHeaders(_) => !s.requestPhase.Waiting? && s.responsePhase.Waiting?
    case ResponseBody(_) => s.responsePhase.Open?
  }

  function Operation(hs: Headers): string {
    var op := Lookup(hs, "buffer-operation");
    if op.Some? && op.value in {"append", "prepend", "replace"} then op.value else "replace"
  }

  predicate AtResponse(hs: Headers) {
    Lookup(hs, "buffer-replace-at") == Some("response")
  }

  predicate Acceptable(hs: Headers) {
    Lookup(hs, CONTENT_LENGTH).Some?
  }

  function Step(s: State, e: Event): State
    requires Enabled(s, e)
  {
    match e
    case RequestHeaders(hs) =>
      if !Acceptable(hs) then
        s.(ctx := s.ctx.(modifyResponse := s.ctx.modifyResponse || AtResponse(hs)), request := s.request.(headers := hs),
           reply := Some(REFUSAL), requestPhase := Ended)
      else
        var rest := Remove(hs, CONTENT_LENGTH);
        s.(ctx := s.ctx.(modifyResponse := s.ctx.modifyResponse || AtResponse(hs), bufferOperation := Operation(rest)),
           request := s.request.(headers := rest), requestPhase := Open)
    case RequestBody(c) =>
      var t := s.(requestPhase := if c.last then Ended else Open);
      if s.ctx.modifyResponse then t.(request := Pass(s.request, c))
      else
        var size := s.ctx.totalRequestBodySize + |c.data|;
        t.(ctx := s.ctx.(totalRequestBodySize := size), request := Hold(s.request, s.ctx.bufferOperation, size, c))
    case ResponseHeaders(hs) =>
      s.(response := s.response.(headers := if s.ctx.modifyResponse then Remove(hs, CONTENT_LENGTH) else hs),
         responsePhase := Open)
    case ResponseBody(c) =>
      var t := s.(responsePhase := if c.last then Ended else Open);
      if !s.ctx.modifyResponse then t.(response := Pass(s.response, c))
      else
        var size := s.ctx.totalResponseBodySize + |c.data|;
        t.(ctx := s.ctx.(totalResponseBodySize := size), response := Hold(s.response, s.ctx.bufferOperation, size, c))
  }

  predicate IsRun(run: seq<Event>)
    decreases |run|, 0
  {
    run == [] || (IsRun(Front(run)) && Enabled(Exec(Front(run)), Last(run)))
  }

  function Exec(run: seq<Event>): State
    requires IsRun(run)
    decreases |run|, 1
  {
    if run == [] then INIT else Step(Exec(Front(run)), Last(run))
  }

  // ---------- What was sent, read off the run ----------

  /** The headers and the body that arrived in one direction, and its last chunk once there is one. */
  datatype Arrived = Arrived(headers: Option<Headers>, body: string, last: Option<Chunk>)

  function WithChunk(a: Arrived, c: Chunk): Arrived {
    Arrived(a.headers, a.body + c.data, if c.last then Some(c) else None)
  }

  function RequestOf(run: seq<Event>): Arrived {
    if run == [] then Arrived(None, "", None)
    else match Last(run)
      case RequestHeaders(hs) => RequestOf(Front(run)).(headers := Some(hs))
      case RequestBody(c) => WithChunk(RequestOf(Front(run)), c)
      case _ => RequestOf(Front(run))
  }

  function ResponseOf(run: seq<Event>): Arrived {
    if run == [] then Arrived(None, "", None)
    else match Last(run)
      case ResponseHeaders(hs) => ResponseOf(Front(run)).(headers := Some(hs))
      case ResponseBody(c) => WithChunk(ResponseOf(Front(run)), c)
      case _ => ResponseOf(Front(run))
  }

  predicate WasRewritten(a: Arrived) {
    a.last.Some? && a.last.value.readOk && a.last.value.editOk
  }

  /** The direction that is rewritten: nothing leaves before the end, and then the whole body at once. */
  function Rewritten(a: Arrived, op: string, headers: Headers): Direction {
    if a.last.None? then Direction(headers, a.body, "", None)
    else Direction(headers, "", if WasRewritten(a) then Rewrite(op, a.body) else a.body,
                   if a.last.value.readOk then Some(a.body) else None)
  }

  /** The other direction: everything leaves at once and unchanged. */
  function Untouched(a: Arrived, headers: Headers): Direction {
    Direction(headers, "", a.body, None)
  }

  /** What a stream must look like, as a function of what arrived and not of how it was cut into chunks. */
  ghost predicate AsPromised(s: State, q: Arrived, p: Arrived) {
    && (s.requestPhase.Waiting? <==> q.headers.None?)
    && (s.responsePhase.Waiting? <==> p.headers.None?)
    && (q.headers.None? ==> s == INIT && p.headers.None?)
    && (q.headers.None? ==> q == Arrived(None, "", None))
    && (p.headers.None? ==> p == Arrived(None, "", None) && s.response == NO_DIRECTION)
    && (q.headers.Some? ==>
          var hs := q.headers.value;
          && s.ctx.modifyResponse == AtResponse(hs)
          && s.ctx.bufferOperation == (if Acceptable(hs) then Operation(hs) else "")
          && s.reply == (if Acceptable(hs) then None else Some(REFUSAL))
          && (s.requestPhase.Ended? <==> q.last.Some? || !Acceptable(hs))
          && (!Acceptable(hs) ==> q == Arrived(Some(hs), "", None) && s.request == Direction(hs, "", "", None))
          && (Acceptable(hs) ==>
                s.request == if AtResponse(hs) then Untouched(q, Remove(hs, CONTENT_LENGTH))
                             else Rewritten(q, Operation(hs), Remove(hs, CONTENT_LENGTH)))
          && (p.headers.Some? ==>
                && (s.responsePhase.Ended? <==> p.last.Some?)
                && s.response == if AtResponse(hs) then Rewritten(p, s.ctx.bufferOperation, Remove(p.headers.value, CONTENT_LENGTH))
                                 else Untouched(p, p.headers.value)))
    && (q.last.None? && !s.ctx.modifyResponse ==> s.ctx.totalRequestBodySize == |q.body|)
    && (p.last.None? && s.ctx.modifyResponse ==> s.ctx.totalResponseBodySize == |p.body|)
  }

  lemma HoldBuilds(a: Arrived, op: string, headers: Headers, c: Chunk)
    requires a.last.None?
    ensures Hold(Rewritten(a, op, headers), op, |a.body + c.data|, c) == Rewritten(WithChunk(a, c), op, headers)
  {
    var body := a.body + c.data;
    assert Clamp(body, |body|) == body;
    assert "" + body == body && "" + Rewrite(op, body) == Rewrite(op, body);
  }

  lemma PassBuilds(a: Arrived, headers: Headers, c: Chunk)
    ensures Pass(Untouched(a, headers), c) == Untouched(WithChunk(a, c), headers)
  {
    assert "" + c.data == c.data;
  }

  lemma OperationSurvives(hs: Headers)
    ensures Operation(Remove(hs, CONTENT_LENGTH)) == Operation(hs)
  {
    RemoveLookup(hs, CONTENT_LENGTH, "buffer-operation");
  }

  lemma PromiseKept(s: State, e: Event, q: Arrived, p: Arrived)
    requires AsPromised(s, q, p) && Enabled(s, e)
    ensures match e
            case RequestHeaders(hs) => AsPromised(Step(s, e), q.(headers := Some(hs)), p)
            case RequestBody(c) => AsPromised(Step(s, e), WithChunk(q, c), p)
            case ResponseHeaders(hs) => AsPromised(Step(s, e), q, p.(headers := Some(hs)))
            case ResponseBody(c) => AsPromised(Step(s, e), q, WithChunk(p, c))
  {
    match e
    case RequestHeaders(hs) =>
      OperationSurvives(hs);
    case RequestBody(c) =>
      var rest := Remove(q.headers.value, CONTENT_LENGTH);
      HoldBuilds(q, s.ctx.bufferOperation, rest, c);
      PassBuilds(q, rest, c);
    case ResponseHeaders(hs) =>
    case ResponseBody(c) =>
      var hs := p.headers.value;
      HoldBuilds(p, s.ctx.bufferOperation, Remove(hs, CONTENT_LENGTH), c);
      PassBuilds(p, hs, c);
  }

  /** Every run, whatever the interleaving of the directions and the cutting into chunks. */
  lemma {:induction false} WholeStream(run: seq<Event>)
    requires IsRun(run)
    ensures AsPromised(Exec(run), RequestOf(run), ResponseOf(run))
  {
    if run != [] {
      WholeStream(Front(run));
      PromiseKept(Exec(Front(run)), Last(run), RequestOf(Front(run)), ResponseOf(Front(run)));
    }
  }

  // ---------- The edit, spelled out ----------

  /** What the client asked for with buffer-operation; anything but append and prepend means replace. */
  ghost predicate IsEdit(hs: Headers, body: string, released: string) {
    var op := Lookup(hs, "buffer-operation");
    && (op == Some("append") ==> body <= released && released[|body|..] == "[this is appended body]")
    && (op == Some("prepend") ==>
          "[this is prepended body]" <= released && released[|"[this is prepended body]"|..] == body)
    && (op != Some("append") && op != Some("prepend") ==> released == "[this is replaced body]")
  }

  lemma RewriteMeans(hs: Headers, body: string)
    ensures IsEdit(hs, body, Rewrite(Operation(hs), body))
  {
  }

  /** The same body, cut differently, leaves as the same body. */
  lemma ChunkingInvariance(run: seq<Event>, other: seq<Event>)
    requires IsRun(run) && IsRun(other)
    requires RequestOf(run).headers.Some? && RequestOf(other).headers == RequestOf(run).headers
    requires RequestOf(run).last.Some? && RequestOf(other).last.Some?
    requires RequestOf(run).body == RequestOf(other).body
    requires WasRewritten(RequestOf(run)) == WasRewritten(RequestOf(other))
    ensures Exec(run).request.released == Exec(other).request.released
    ensures AtResponse(RequestOf(run).headers.value) || !WasRewritten(RequestOf(run)) ==>
              Exec(run).request.released == RequestOf(run).body
    ensures !AtResponse(RequestOf(run).headers.value) && WasRewritten(RequestOf(run)) ==>
              IsEdit(RequestOf(run).headers.value, RequestOf(run).body, Exec(run).request.released)
  {
    WholeStream(run);
    WholeStream(other);
    RewriteMeans(RequestOf(run).headers.value, RequestOf(run).body);
  }

  /** The same for the response. */
  lemma ResponseChunkingInvariance(run: seq<Event>, other: seq<Event>)
    requires IsRun(run) && IsRun(other)
    requires RequestOf(run).headers.Some? && RequestOf(other).headers == RequestOf(run).headers
    requires Acceptable(RequestOf(run).headers.value)
    requires ResponseOf(run).last.Some? && ResponseOf(other).last.Some?
    requires ResponseOf(run).body == ResponseOf(other).body
    requires WasRewritten(ResponseOf(run)) == WasRewritten(ResponseOf(other))
    ensures Exec(run).response.released == Exec(other).response.released
    ensures AtResponse(RequestOf(run).headers.value) && WasRewritten(ResponseOf(run)) ==>
              IsEdit(RequestOf(run).headers.value, ResponseOf(run).body, Exec(run).response.released)
    ensures !(AtResponse(RequestOf(run).headers.value) && WasRewritten(ResponseOf(run))) ==>
              Exec(run).response.released == ResponseOf(run).body
  {
    WholeStream(run);
    WholeStream(other);
    RewriteMeans(RequestOf(run).headers.value, ResponseOf(run).body);
  }

  /** A request that is to be rewritten leaves as the edit of the whole body that arrived. */
  lemma RequestIsEdited(run: seq<Event>)
    requires IsRun(run) && RequestOf(run).headers.Some? && RequestOf(run).last.Some?
    requires RequestOf(run).last.value.readOk && RequestOf(run).last.value.editOk
    requires Lookup(RequestOf(run).headers.value, "buffer-replace-at") != Some("response")
    ensures IsEdit(RequestOf(run).headers.value, RequestOf(run).body, Exec(run).request.released)
  {
    WholeStream(run);
    RewriteMeans(RequestOf(run).headers.value, RequestOf(run).body);
  }

  /** A response that is to be rewritten leaves as the edit of the whole body that arrived. */
  lemma ResponseIsEdited(run: seq<Event>)
    requires IsRun(run) && RequestOf(run).headers.Some? && ResponseOf(run).last.Some?
    requires ResponseOf(run).last.value.readOk && ResponseOf(run).last.value.editOk
    requires Lookup(RequestOf(run).headers.value, "buffer-replace-at") == Some("response")
    requires Lookup(RequestOf(run).headers.value, "content-length").Some?
    ensures IsEdit(RequestOf(run).headers.value, ResponseOf(run).body, Exec(run).response.released)
  {
    WholeStream(run);
    RewriteMeans(RequestOf(run).headers.value, ResponseOf(run).body);
  }

  function DataIn(e: Event): string {
    if e.RequestBody? || e.ResponseBody? then e.chunk.data else ""
  }

  function DataInAll(events: seq<Event>): seq<string> {
    seq(|events|, k requires 0 <= k < |events| => DataIn(events[k]))
  }

  lemma DataInAllSnoc(events: seq<Event>, e: Event)
    ensures Flatten(DataInAll(events + [e])) == Flatten(DataInAll(events)) + DataIn(e)
  {
    assert DataInAll(events + [e]) == DataInAll(events) + [DataIn(e)];
    FlattenSnoc(DataInAll(events), DataIn(e));
  }

  predicate IsRequestChunk(e: Event) {
    e.RequestBody?
  }

  predicate IsResponseChunk(e: Event) {
    e.ResponseBody?
  }

  /** The arrived request body is the concatenation of exactly the request chunks, in order. */
  lemma {:induction false} RequestBodyInOrder(run: seq<Event>)
    ensures RequestOf(run).body == Flatten(DataInAll(Picked(run, IsRequestChunk)))
  {
    if run != [] {
      RequestBodyInOrder(Front(run));
      var before := Picked(Front(run), IsRequestChunk);
      DataInAllSnoc(before, Last(run));
      assert Picked(run, IsRequestChunk) == if Last(run).RequestBody? then before + [Last(run)] else before;
    }
  }

  /** The arrived response body is the concatenation of exactly the response chunks, in order. */
  lemma {:induction false} ResponseBodyInOrder(run: seq<Event>)
    ensures ResponseOf(run).body == Flatten(DataInAll(Picked(run, IsResponseChunk)))
  {
    if run != [] {
      ResponseBodyInOrder(Front(run));
      var before := Picked(Front(run), IsResponseChunk);
      DataInAllSnoc(before, Last(run));
      assert Picked(run, IsResponseChunk) == if Last(run).ResponseBody? then before + [Last(run)] else before;
    }
  }

  /**
   * Headers and body agree at every moment: at most one direction differs from what arrived, it is the
   * one that buffer-replace-at names, nothing of it leaves before its end, and it has no content-length.
   */
  lemma HeadersAgreeWithBody(run: seq<Event>)
    requires IsRun(run) && RequestOf(run).headers.Some?
    ensures var s := Exec(run); var q := RequestOf(run); var p := ResponseOf(run); var hs := q.headers.value;
            && (Lookup(hs, "buffer-replace-at") == Some("response") ==> s.request.released == q.body)
            && (Lookup(hs, "buffer-replace-at") != Some("response") ==> s.response.released == p.body)
            && (Lookup(hs, "buffer-replace-at") != Some("response") && q.last.None? ==> s.request.released == "")
            && (Lookup(hs, "buffer-replace-at") == Some("response") && p.last.None? ==> s.response.released == "")
            && (s.request.released + s.request.buffer != q.body ==> Lookup(s.request.headers, "content-length") == None)
            && (s.response.released + s.response.buffer != p.body ==> Lookup(s.response.headers, "content-length") == None)
  {
    WholeStream(run);
    RemoveLookup(RequestOf(run).headers.value, CONTENT_LENGTH, CONTENT_LENGTH);
    if ResponseOf(run).headers.Some? {
      RemoveLookup(ResponseOf(run).headers.value, CONTENT_LENGTH, CONTENT_LENGTH);
    }
  }

  /** A request is answered 400 exactly when it has no content-length, and then none of it is forwarded. */
  lemma RefusedIffNoContentLength(run: seq<Event>)
    requires IsRun(run) && RequestOf(run).headers.Some?
    ensures Exec(run).reply.Some? <==> Lookup(RequestOf(run).headers.value, "content-length") == None
    ensures Exec(run).reply.Some? ==>
              && Exec(run).reply.value == LocalReply(400, "content must be provided")
              && Exec(run).request.released == ""
              && Exec(run).requestPhase.Ended?
    ensures Exec(run).reply.None? ==> Lookup(Exec(run).request.headers, "content-length") == None
  {
    WholeStream(run);
    RemoveLookup(RequestOf(run).headers.value, CONTENT_LENGTH, CONTENT_LENGTH);
  }

  // ---------- The code ----------

  datatype Action = Continue | Pause

  /** The host's side of one direction. */
  class HostDirection {
    var headers: Headers
    var buffer: string
    var released: string
    var logged: Option<string>

    ghost function Seen(): Direction
      reads this
    {
      Direction(headers, buffer, released, logged)
    }

    constructor ()
      ensures Seen() == NO_DIRECTION
    {
      headers, buffer, released, logged := [], "", "", None;
    }

    /** The host obeys the action that a body handler returned. */
    method Obey(action: Action)
      modifies this
      ensures Seen() == if action.Continue? then Release(old(Seen())) else old(Seen())
    {
      if action.Continue? {
        released, buffer := released + buffer, "";
      }
    }

    /** The end of both body handlers of setBodyContext: log the whole body and edit it. */
    method EditBody(bufferOperation: string, size: nat, readOk: bool, editOk: bool)
      modifies this
      ensures forall c: Chunk :: c.readOk == readOk && c.editOk == editOk ==>
                Seen() == Edited(old(Seen()), bufferOperation, size, c)
      ensures readOk && editOk ==>
                && (bufferOperation == "append" ==> buffer == old(buffer) + "[this is appended body]")
                && (bufferOperation == "prepend" ==> buffer == "[this is prepended body]" + old(buffer))
                && (bufferOperation == "replace" ==> buffer == "[this is replaced body]")
    {
      if !readOk {
        return;
      }
      logged := Some(Clamp(buffer, size));
      if editOk {
        if bufferOperation == "append" {
          buffer := buffer + "[this is appended body]";
        } else if bufferOperation == "prepend" {
          buffer := "[this is prepended body]" + buffer;
        } else if bufferOperation == "replace" {
          buffer := "[this is replaced body]";
        }
      }
    }
  }

  class SetBodyContext {
    var modifyResponse: bool
    var totalRequestBodySize: nat
    var totalResponseBodySize: nat
    var bufferOperation: string

    ghost function Seen(): Context
      reads this
    {
      Context(modifyResponse, bufferOperation, totalRequestBodySize, totalResponseBodySize)
    }

    constructor ()
      ensures Seen() == INIT.ctx
    {
      modifyResponse, totalRequestBodySize, totalResponseBodySize, bufferOperation := false, 0, 0, "";
    }

    /** The reply, if the handler sends one. */
    method OnHttpRequestHeaders(request: HostDirection) returns (action: Action, reply: Option<LocalReply>)
      modifies this, request
      ensures var hs := old(request.headers);
              if Acceptable(hs) then
                && action == Continue && reply == None
                && Seen() == old(Seen()).(modifyResponse := old(modifyResponse) || AtResponse(hs), bufferOperation := Operation(hs))
                && request.Seen() == old(request.Seen()).(headers := Remove(hs, CONTENT_LENGTH))
              else
                && action == Pause && reply == Some(LocalReply(400, "content must be provided"))
                && Seen() == old(Seen()).(modifyResponse := old(modifyResponse) || AtResponse(hs))
                && request.Seen() == old(request.Seen())
    {
      OperationSurvives(request.headers);
      var mode := Lookup(request.headers, "buffer-replace-at");
      if mode == Some("response") {
        modifyResponse := true;
      }
      if Lookup(request.headers, CONTENT_LENGTH).None? {
        return Pause, Some(LocalReply(400, "content must be provided"));
      }
      request.headers := Remove(request.headers, CONTENT_LENGTH);
      var op := Lookup(request.headers, "buffer-operation");
      if op.None? || (op.value != "append" && op.value != "prepend" && op.value != "replace") {
        op := Some("replace");
      }
      bufferOperation := op.value;
      return Continue, None;
    }

    method OnHttpRequestBody(request: HostDirection, bodySize: nat, endOfStream: bool, readOk: bool, editOk: bool)
      returns (action: Action)
      modifies this, request
      ensures modifyResponse ==> action == Continue && Seen() == old(Seen()) && request.Seen() == old(request.Seen())
      ensures !modifyResponse ==>
                && Seen() == old(Seen()).(totalRequestBodySize := old(totalRequestBodySize) + bodySize)
                && (!endOfStream ==> action == Pause && request.Seen() == old(request.Seen()))
                && (endOfStream ==> action == Continue && forall c: Chunk :: c.readOk == readOk && c.editOk == editOk ==>
                      request.Seen() == Edited(old(request.Seen()), bufferOperation, totalRequestBodySize, c))
                && (endOfStream && readOk && editOk ==>
                      && (bufferOperation == "append" ==> request.buffer == old(request.buffer) + "[this is appended body]")
                      && (bufferOperation == "prepend" ==> request.buffer == "[this is prepended body]" + old(request.buffer))
                      && (bufferOperation == "replace" ==> request.buffer == "[this is replaced body]"))
      ensures modifyResponse == old(modifyResponse)
    {
      if modifyResponse {
        return Continue;
      }
      totalRequestBodySize := totalRequestBodySize + bodySize;
      if !endOfStream {
        return Pause;
      }
      request.EditBody(bufferOperation, totalRequestBodySize, readOk, editOk);
      return Continue;
    }

    method OnHttpResponseHeaders(response: HostDirection) returns (action: Action)
      modifies response
      ensures action == Continue
      ensures response.Seen() == old(response.Seen()).(headers :=
                if modifyResponse then Remove(old(response.headers), CONTENT_LENGTH) else old(response.headers))
    {
      if !modifyResponse {
        return Continue;
      }
      response.headers := Remove(response.headers, CONTENT_LENGTH);
      return Continue;
    }

    method OnHttpResponseBody(response: HostDirection, bodySize: nat, endOfStream: bool, readOk: bool, editOk: bool)
      returns (action: Action)
      modifies this, response
      ensures !modifyResponse ==> action == Continue && Seen() == old(Seen()) && response.Seen() == old(response.Seen())
      ensures modifyResponse ==>
                && Seen() == old(Seen()).(totalResponseBodySize := old(totalResponseBodySize) + bodySize)
                && (!endOfStream ==> action == Pause && response.Seen() == old(response.Seen()))
                && (endOfStream ==> action == Continue && forall c: Chunk :: c.readOk == readOk && c.editOk == editOk ==>
                      response.Seen() == Edited(old(response.Seen()), bufferOperation, totalResponseBodySize, c))
                && (endOfStream && readOk && editOk ==>
                      && (bufferOperation == "append" ==> response.buffer == old(response.buffer) + "[this is appended body]")
                      && (bufferOperation == "prepend" ==> response.buffer == "[this is prepended body]" + old(response.buffer))
                      && (bufferOperation == "replace" ==> response.buffer == "[this is replaced body]"))
      ensures modifyResponse == old(modifyResponse)
    {
      if !modifyResponse {
        return Continue;
      }
      totalResponseBodySize := totalResponseBodySize + bodySize;
      if !endOfStream {
        return Pause;
      }
      response.EditBody(bufferOperation, totalResponseBodySize, readOk, editOk);
      return Continue;
    }
  }

  /** A stream with its context: the host feeds the handlers and obeys what they return. */
  class FilteredStream {
    const ctx: SetBodyContext
    const request: HostDirection
    const response: HostDirection
    var reply: Option<LocalReply>
    var requestPhase: Phase
    var responsePhase: Phase

    ghost function Seen(): State
      reads this, ctx, request, response
    {
      State(ctx.Seen(), request.Seen(), response.Seen(), reply, requestPhase, responsePhase)
    }

    constructor ()
      ensures Seen() == INIT && request != response
      ensures fresh(ctx) && fresh(request) && fresh(response)
    {
      ctx := new SetBodyContext();
      request := new HostDirection();
      response := new HostDirection();
      reply, requestPhase, responsePhase := None, Waiting, Waiting;
    }

    method OnRequest(e: Event)
      requires e.RequestHeaders? || e.RequestBody?
      requires request != response && Enabled(Seen(), e)
      modifies this, ctx, request
      ensures Seen() == Step(old(Seen()), e)
    {
      match e
      case RequestHeaders(hs) =>
        request.headers := hs;
        OperationSurvives(hs);
        var action, r := ctx.OnHttpRequestHeaders(request);
        if r.Some? {
          reply := r;
        }
        requestPhase := if action.Pause? then Ended else Open;
      case RequestBody(c) =>
        request.buffer := request.buffer + c.data;
        var action := ctx.OnHttpRequestBody(request, |c.data|, c.last, c.readOk, c.editOk);
        request.Obey(action);
        requestPhase := if c.last then Ended else Open;
    }

    method OnResponse(e: Event)
      requires e.ResponseHeaders? || e.ResponseBody?
      requires request != response && Enabled(Seen(), e)
      modifies this, ctx, response
      ensures Seen() == Step(old(Seen()), e)
    {
      match e
      case ResponseHeaders(hs) =>
        response.headers := hs;
        var _ := ctx.OnHttpResponseHeaders(response);
        responsePhase := Open;
      case ResponseBody(c) =>
        response.buffer := response.buffer + c.data;
        var action := ctx.OnHttpResponseBody(response, |c.data|, c.last, c.readOk, c.editOk);
        response.Obey(action);
        responsePhase := if c.last then Ended else Open;
    }
  }

  /** The host's event loop over the code: every run of events ends in the state that the run describes. */
  method HandleEvents(run: seq<Event>) returns (stream: FilteredStream)
    requires IsRun(run)
    ensures fresh(stream) && fresh(stream.ctx) && fresh(stream.request) && fresh(stream.response)
    ensures stream.request != stream.response
    ensures stream.Seen() == Exec(run)
    ensures AsPromised(stream.Seen(), RequestOf(run), ResponseOf(run))
    decreases |run|
  {
    if run == [] {
      stream := new FilteredStream();
    } else {
      stream := HandleEvents(Front(run));
      if Last(run).RequestHeaders? || Last(run).RequestBody? {
        stream.OnRequest(Last(run));
      } else {
        stream.OnResponse(Last(run));
      }
    }
    WholeStream(run);
  }

  // ---------- The echo variant ----------

  function DataOf(chunks: seq<Chunk>): seq<string> {
    seq(|chunks|, i requires 0 <= i < |chunks| => chunks[i].data)
  }

  class EchoBodyContext {
    var totalRequestBodySize: nat

    constructor ()
      ensures totalRequestBodySize == 0
    {
      totalRequestBodySize := 0;
    }

    method OnHttpRequestBody(buffer: string, bodySize: nat, endOfStream: bool, readOk: bool)
      returns (action: Action, reply: Option<LocalReply>)
      modifies this
      ensures totalRequestBodySize == old(totalRequestBodySize) + bodySize
      ensures action == Pause
      ensures reply == if !endOfStream then None
                       else Some(LocalReply(200, if readOk then Clamp(buffer, totalRequestBodySize) else ""))
    {
      totalRequestBodySize := totalRequestBodySize + bodySize;
      if !endOfStream {
        return Pause, None;
      }
      var body := if readOk then Clamp(buffer, totalRequestBodySize) else "";
      return Pause, Some(LocalReply(200, body));
    }
  }

  lemma ClampAll(buffer: string)
    ensures Clamp(buffer, |buffer|) == buffer
  {
  }

  /** A request through the echo variant: nothing is forwarded, and the reply to the last chunk is the whole body. */
  method EchoStream(chunks: seq<Chunk>) returns (released: string, reply: Option<LocalReply>)
    requires forall i :: 0 <= i < |chunks| - 1 ==> !chunks[i].last
    ensures released == ""
    ensures reply == if chunks == [] || !Last(chunks).last then None
                     else Some(LocalReply(200, if Last(chunks).readOk then Flatten(DataOf(chunks)) else ""))
  {
    var ctx := new EchoBodyContext();
    var buffer := "";
    released, reply := "", None;
    for i := 0 to |chunks|
      invariant buffer == Flatten(DataOf(chunks[..i])) && ctx.totalRequestBodySize == |buffer|
      invariant released == ""
      invariant reply == if i == 0 || !chunks[i - 1].last then None
                         else Some(LocalReply(200, if chunks[i - 1].readOk then buffer else ""))
    {
      var c := chunks[i];
      assert DataOf(chunks[..i + 1]) == DataOf(chunks[..i]) + [c.data];
      FlattenSnoc(DataOf(chunks[..i]), c.data);
      buffer := buffer + c.data;
      var action;
      action, reply := ctx.OnHttpRequestBody(buffer, |c.data|, c.last, c.readOk);
      ClampAll(buffer);
      if action.Continue? {
        released, buffer := released + buffer, "";
      }
    }
    assert chunks[..|chunks|] == chunks;
  }
}
