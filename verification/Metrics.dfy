/** The per-value counter cache (istio/envoy/wasm-go/metrics), with any number of VMs over one host. */
module Metrics {
  import opened Common

  type MetricId = nat

  const NAME_HEAD := "custom_header_value_counts_" + "value" + "="
  const NAME_TAIL := "_reporter=wasmgosdk"

  function Name(v: string): string {
    NAME_HEAD + v + NAME_TAIL
  }

  /** Different header values never share a metric. */
  lemma NameIsInjective(v: string, w: string)
    requires Name(v) == Name(w)
    ensures v == w
  {
    assert |v| == |w|;
    assert Name(v)[|NAME_HEAD|..|NAME_HEAD| + |v|] == v;
    assert Name(w)[|NAME_HEAD|..|NAME_HEAD| + |w|] == w;
  }

  /** `defined` logs every definition of a metric by a VM. */
  datatype Host = Host(ids: map<string, MetricId>, values: seq<nat>, defined: seq<(VmId, string)>)

  type Cache = map<string, MetricId>

  /** DefineCounterMetric: a name that exists already keeps its metric. */
  function Define(h: Host, vm: VmId, v: string): (r: (Host, MetricId)) {
    var logged := h.(defined := h.defined + [(vm, v)]);
    if Name(v) in h.ids then (logged, h.ids[Name(v)])
    else (logged.(ids := h.ids[Name(v) := |h.values|], values := h.values + [0]), |h.values|)
  }

  function Increment(h: Host, id: MetricId): Host {
    if id < |h.values| then h.(values := h.values[id := h.values[id] + 1]) else h
  }

  function Handle(h: Host, cache: Cache, vm: VmId, v: string): (Host, Cache) {
    if v in cache then (Increment(h, cache[v]), cache)
    else
      var (g, id) := Define(h, vm, v);
      (Increment(g, id), cache[v := id])
  }

  datatype State = State(host: Host, caches: map<VmId, Cache>)

  /** A request handled by one VM, with the value of its custom header if it has one. */
  datatype Event = Request(vm: VmId, header: Option<string>)

  const INIT := State(Host(map[], [], []), map[])

  function CacheOf(s: State, vm: VmId): Cache {
    if vm in s.caches then s.caches[vm] else map[]
  }

  function Step(s: State, e: Event): State {
    match e.header
    case None => s
    case Some(v) =>
      var (h, cache) := Handle(s.host, CacheOf(s, e.vm), e.vm, v);
      State(h, s.caches[e.vm := cache])
  }

  function Exec(run: seq<Event>): State {
    if run == [] then INIT else Step(Exec(Front(run)), Last(run))
  }

  function Occurrences(run: seq<Event>, v: string): nat {
    if run == [] then 0
    else Occurrences(Front(run), v) + if Last(run).header == Some(v) then 1 else 0
  }

  function OccurrencesAt(run: seq<Event>, vm: VmId, v: string): nat {
    if run == [] then 0
    else OccurrencesAt(Front(run), vm, v) + if Last(run) == Request(vm, Some(v)) then 1 else 0
  }

  /** Every name has a metric of its own. */
  ghost predicate SoundHost(h: Host) {
    && (forall name :: name in h.ids ==> h.ids[name] < |h.values|)
    && (forall name, other :: name in h.ids && other in h.ids && h.ids[name] == h.ids[other] ==> name == other)
  }

  /** A cached counter is the metric that the host has for the value. */
  ghost predicate SoundCache(h: Host, cache: Cache) {
    forall v :: v in cache ==> Name(v) in h.ids && cache[v] == h.ids[Name(v)]
  }

  ghost predicate Sound(s: State) {
    SoundHost(s.host) && forall vm :: vm in s.caches ==> SoundCache(s.host, s.caches[vm])
  }

  lemma DefineIsSound(h: Host, vm: VmId, v: string)
    requires SoundHost(h)
    ensures SoundHost(Define(h, vm, v).0)
    ensures forall name :: name in h.ids ==>
              name in Define(h, vm, v).0.ids && Define(h, vm, v).0.ids[name] == h.ids[name]
    ensures Name(v) in Define(h, vm, v).0.ids && Define(h, vm, v).0.ids[Name(v)] == Define(h, vm, v).1
  {
  }

  lemma SoundStep(s: State, e: Event)
    requires Sound(s)
    ensures Sound(Step(s, e))
  {
    if e.header.Some? {
      DefineIsSound(s.host, e.vm, e.header.value);
      var t := Step(s, e);
      forall vm | vm in t.caches
        ensures SoundCache(t.host, t.caches[vm])
      {
        assert SoundCache(s.host, CacheOf(s, vm));
      }
    }
  }

  /** The metric of `v` exists exactly when `n` is positive, and then counts to `n`. */
  ghost predicate Counts(h: Host, v: string, n: nat)
    requires Name(v) in h.ids ==> h.ids[Name(v)] < |h.values|
  {
    && (Name(v) in h.ids <==> n > 0)
    && (n > 0 ==> h.values[h.ids[Name(v)]] == n)
  }

  lemma CountsStep(s: State, e: Event, v: string, n: nat)
    requires Sound(s) && Counts(s.host, v, n)
    ensures Sound(Step(s, e))
    ensures Counts(Step(s, e).host, v, n + if e.header == Some(v) then 1 else 0)
  {
    SoundStep(s, e);
    if e.header.Some? && e.header.value != v {
      if Name(e.header.value) == Name(v) {
        NameIsInjective(e.header.value, v);
      }
    }
  }

  /** A VM has cached, and defined once, exactly the values that it has seen. */
  ghost predicate DefinedOnce(s: State, vm: VmId, v: string, n: nat) {
    && (v in CacheOf(s, vm) <==> n > 0)
    && multiset(s.host.defined)[(vm, v)] == if n > 0 then 1 else 0
  }

  lemma DefinedOnceStep(s: State, e: Event, vm: VmId, v: string, n: nat)
    requires DefinedOnce(s, vm, v, n)
    ensures DefinedOnce(Step(s, e), vm, v, n + if e == Request(vm, Some(v)) then 1 else 0)
  {
  }

  /** The positions of the requests that carry the value. */
  ghost function Requests(run: seq<Event>, v: string): set<nat> {
    set i: nat | i < |run| && run[i].header == Some(v)
  }

  lemma {:induction false} OccurrencesMeans(run: seq<Event>, v: string)
    ensures Occurrences(run, v) == |Requests(run, v)|
  {
    if run == [] {
      assert Requests(run, v) == {};
    } else {
      var n := |run| - 1;
      OccurrencesMeans(Front(run), v);
      assert forall i :: 0 <= i < n ==> run[i] == Front(run)[i];
      var hit: set<nat> := if run[n].header == Some(v) then {n} else {};
      assert Requests(run, v) == Requests(Front(run), v) + hit;
    }
  }

  /** For every trace over any number of VMs, a value's metric exists iff the value occurred, and counts it. */
  lemma {:induction false} MetricCountsOccurrences(run: seq<Event>, v: string)
    ensures Sound(Exec(run)) && Counts(Exec(run).host, v, Occurrences(run, v))
    ensures var h := Exec(run).host;
            var name := "custom_header_value_counts_" + "value" + "=" + v + "_reporter=wasmgosdk";
            var n := |Requests(run, v)|;
            && (name in h.ids <==> n > 0)
            && (n > 0 ==> h.ids[name] < |h.values| && h.values[h.ids[name]] == n)
  {
    OccurrencesMeans(run, v);
    if run != [] {
      MetricCountsOccurrences(Front(run), v);
      CountsStep(Exec(Front(run)), Last(run), v, Occurrences(Front(run), v));
    }
  }

  /** Each VM defines the metric of a value once, however often the value occurs. */
  lemma {:induction false} CacheDefinesOnce(run: seq<Event>, vm: VmId, v: string)
    ensures DefinedOnce(Exec(run), vm, v, OccurrencesAt(run, vm, v))
  {
    if run != [] {
      CacheDefinesOnce(Front(run), vm, v);
      DefinedOnceStep(Exec(Front(run)), Last(run), vm, v, OccurrencesAt(Front(run), vm, v));
    }
  }

  // ---------- The code ----------

  class MetricHost {
    var ids: map<string, MetricId>
    var values: seq<nat>
    var defined: seq<(VmId, string)>

    ghost function Seen(): Host
      reads this
    {
      Host(ids, values, defined)
    }

    constructor ()
      ensures Seen() == INIT.host
    {
      ids, values, defined := map[], [], [];
    }

    method DefineCounterMetric(vm: VmId, v: string) returns (id: MetricId)
      modifies this
      ensures (Seen(), id) == Define(old(Seen()), vm, v)
    {
      defined := defined + [(vm, v)];
      var fqn := Name(v);
      if fqn in ids {
        id := ids[fqn];
      } else {
        id := |values|;
        ids, values := ids[fqn := id], values + [0];
      }
    }

    method IncrementMetric(id: MetricId)
      modifies this
      ensures Seen() == Increment(old(Seen()), id)
    {
      if id < |values| {
        values := values[id := values[id] + 1];
      }
    }
  }

  /** A VM with its package-level counters map. */
  class Vm {
    const id: VmId
    var counters: Cache

    constructor (id: VmId)
      ensures this.id == id && counters == map[]
    {
      this.id := id;
      counters := map[];
    }

    method OnHttpRequestHeaders(host: MetricHost, header: Option<string>)
      modifies this, host
      ensures header.None? ==> host.Seen() == old(host.Seen()) && counters == old(counters)
      ensures header.Some? ==> (host.Seen(), counters) == Handle(old(host.Seen()), old(counters), id, header.value)
    {
      if header.Some? {
        var v := header.value;
        var counter;
        if v in counters {
          counter := counters[v];
        } else {
          counter := host.DefineCounterMetric(id, v);
          counters := counters[v := counter];
        }
        host.IncrementMetric(counter);
      }
    }
  }

  ghost predicate Vms(vms: map<VmId, Vm>, s: State)
    reads vms.Values
  {
    && s.caches.Keys <= vms.Keys
    && forall i :: i in vms ==> vms[i].id == i && vms[i].counters == CacheOf(s, i)
  }

  /** The requests of a trace, handled by the code of the VMs they reach. */
  method HandleRequests(run: seq<Event>) returns (host: MetricHost, vms: map<VmId, Vm>)
    ensures fresh(host) && forall i :: i in vms ==> fresh(vms[i])
    ensures host.Seen() == Exec(run).host && Vms(vms, Exec(run))
    decreases |run|
  {
    if run == [] {
      host := new MetricHost();
      vms := map[];
    } else {
      host, vms := HandleRequests(Front(run));
      var e := Last(run);
      if e.vm !in vms {
        var vm := new Vm(e.vm);
        vms := vms[e.vm := vm];
      }
      vms[e.vm].OnHttpRequestHeaders(host, e.header);
    }
  }
}
