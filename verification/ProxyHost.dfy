/**
 * The part of the Proxy-Wasm host that the stream filters see: streams that are paused,
 * resumed or answered, outstanding callouts, and the context that host calls act on.
 */
module ProxyHost {
  import opened Common

  type CalloutId = nat

  datatype Reply = Reply(status: nat, headers: seq<Header>, body: string)

  datatype Stream = Stream(paused: bool, resumes: nat, replies: seq<Reply>, added: seq<Header>)

  datatype View = View(
    streams: map<StreamId, Stream>,
    callouts: map<CalloutId, StreamId>,
    nextCallout: CalloutId,
    resumed: seq<StreamId>)

  const IDLE := View(map[], map[], 0, [])

  /** The callouts of one stream that have not been answered. */
  function Outstanding(v: View, s: StreamId): set<CalloutId> {
    CalloutsOf(v.callouts, s)
  }

  function CalloutsOf(callouts: map<CalloutId, StreamId>, s: StreamId): set<CalloutId> {
    set c | c in callouts && callouts[c] == s
  }

  ghost predicate Sound(v: View) {
    forall c :: c in v.callouts ==> c < v.nextCallout && v.callouts[c] in v.streams
  }

  function Opened(v: View, s: StreamId, paused: bool): View {
    v.(streams := v.streams[s := Stream(paused, 0, [], [])])
  }

  function Resumed(v: View, s: StreamId): View
    requires s in v.streams
  {
    var x := v.streams[s];
    v.(streams := v.streams[s := x.(paused := false, resumes := x.resumes + 1)], resumed := v.resumed + [s])
  }

  function Answered(v: View, s: StreamId, r: Reply): View
    requires s in v.streams
  {
    var x := v.streams[s];
    v.(streams := v.streams[s := x.(replies := x.replies + [r])])
  }

  class Host {
    var streams: map<StreamId, Stream>
    var callouts: map<CalloutId, StreamId>
    var nextCallout: CalloutId
    var resumed: seq<StreamId>
    var effective: StreamId

    ghost function Seen(): View
      reads this
    {
      View(streams, callouts, nextCallout, resumed)
    }

    constructor ()
      ensures Seen() == IDLE
    {
      streams, callouts, nextCallout, resumed, effective := map[], map[], 0, [], 0;
    }

    /** A stream reaches the filter; the host makes it the effective context. */
    method Open(s: StreamId)
      modifies this
      ensures Seen() == Opened(old(Seen()), s, false) && effective == s
    {
      streams := streams[s := Stream(false, 0, [], [])];
      effective := s;
    }

    /** The handler returned ActionPause. */
    method Pause(s: StreamId)
      requires s in streams
      modifies this
      ensures Seen() == old(Seen()).(streams := old(streams)[s := old(streams)[s].(paused := true)])
      ensures effective == old(effective)
    {
      streams := streams[s := streams[s].(paused := true)];
    }

    /** DispatchHttpCall for the effective context. */
    method DispatchHttpCall() returns (c: CalloutId)
      modifies this
      ensures c == old(nextCallout)
      ensures Seen() == old(Seen()).(callouts := old(callouts)[c := effective], nextCallout := c + 1)
      ensures effective == old(effective)
    {
      c := nextCallout;
      callouts := callouts[c := effective];
      nextCallout := nextCallout + 1;
    }

    /** A callout is answered: the host forgets it and makes its stream the effective context. */
    method Deliver(c: CalloutId)
      requires c in callouts
      modifies this
      ensures Seen() == old(Seen()).(callouts := old(callouts) - {c})
      ensures effective == old(callouts)[c]
    {
      effective := callouts[c];
      callouts := callouts - {c};
    }

    method SetEffectiveContext(s: StreamId)
      modifies this
      ensures Seen() == old(Seen()) && effective == s
    {
      effective := s;
    }

    /** ResumeHttpRequest and ResumeHttpResponse. */
    method Resume()
      requires effective in streams
      modifies this
      ensures effective == old(effective) && Seen() == Resumed(old(Seen()), effective)
    {
      var x := streams[effective];
      streams := streams[effective := x.(paused := false, resumes := x.resumes + 1)];
      resumed := resumed + [effective];
    }

    method AddHttpResponseHeader(h: Header)
      requires effective in streams
      modifies this
      ensures effective == old(effective)
      ensures Seen() == old(Seen()).(streams := old(streams)[effective :=
                          old(streams)[effective].(added := old(streams)[effective].added + [h])])
    {
      var x := streams[effective];
      streams := streams[effective := x.(added := x.added + [h])];
    }

    method SendHttpResponse(r: Reply)
      requires effective in streams
      modifies this
      ensures effective == old(effective) && Seen() == Answered(old(Seen()), effective, r)
    {
      var x := streams[effective];
      streams := streams[effective := x.(replies := x.replies + [r])];
    }
  }
}
