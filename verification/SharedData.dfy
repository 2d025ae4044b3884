/**
 * The shared counter (istio/envoy/wasm-go/shared_data): any number of Wasm VMs
 * increment one eight-byte value with get, add, compare-and-swap and retry.
 *
 * The host's get and set are separate atomic steps, so a run is any interleaving
 * of them. Every write is given a token; all that is assumed of it is that it is not
 * zero and that no other VM still holds it.
 */
module SharedData {
  import opened Common
  import opened LittleEndian

  const INITIAL_VALUE: uint64 := 10000000

  /** A stored value together with the token of the write that put it there. */
  datatype Cell = Cell(value: seq<byte>, cas: nat)

  /** `held` is what a VM read and has not yet tried to replace. */
  datatype State = State(cell: Option<Cell>, held: map<VmId, Cell>)

  datatype Event =
    | Start(vm: VmId, token: nat)  // OnVMStart: the unconditional write
    | Get(vm: VmId)                // GetSharedData in incrementData
    | Set(vm: VmId, token: nat)    // SetSharedData with the token that was read

  datatype Outcome = Started | Read | NotFound | Incremented(value: uint64) | Mismatch

  const INIT := State(None, map[])

  /** The host refuses a conditional write exactly when the token has changed; 0 is never refused. */
  predicate Refuses(cell: Option<Cell>, cas: nat) {
    cas != 0 && cell.Some? && cell.value.cas != cas
  }

  /** The 64-bit addition wraps around. */
  function Incr(value: seq<byte>): uint64 {
    (Decode(value) + 1) % TWO_64
  }

  /** A set needs a get before it, and a VM makes one attempt at a time. */
  predicate Possible(s: State, e: Event) {
    match e
    case Start(_, _) => true
    case Get(vm) => vm !in s.held
    case Set(vm, _) => vm in s.held
  }

  /** A token can be told from those that other VMs hold. */
  predicate Fresh(s: State, e: Event) {
    e.Get? || (e.token > 0 && forall vm :: vm in s.held && vm != e.vm ==> s.held[vm].cas != e.token)
  }

  predicate Enabled(s: State, e: Event) {
    Possible(s, e) && Fresh(s, e)
  }

  function Result(s: State, e: Event): Outcome
    requires Possible(s, e)
  {
    match e
    case Start(_, _) => Started
    case Get(_) => if s.cell.Some? then Read else NotFound
    case Set(vm, _) =>
      if Refuses(s.cell, s.held[vm].cas) then Mismatch else Incremented(Incr(s.held[vm].value))
  }

  function Step(s: State, e: Event): State
    requires Possible(s, e)
  {
    match e
    case Start(vm, token) =>
      State(Some(Cell(Encode(INITIAL_VALUE, 8), token)), s.held - {vm})
    case Get(vm) =>
      if s.cell.Some? then s.(held := s.held[vm := s.cell.value]) else s
    case Set(vm, token) =>
      if Refuses(s.cell, s.held[vm].cas) then s.(held := s.held - {vm})
      else State(Some(Cell(Encode(Incr(s.held[vm].value), 8), token)), s.held - {vm})
  }

  predicate Writes(s: State, e: Event)
    requires Possible(s, e)
  {
    Result(s, e).Started? || Result(s, e).Incremented?
  }

  // ---------- Runs ----------

  predicate IsRun(run: seq<Event>)
    decreases |run|, 0
  {
    run == [] || (IsRun(Front(run)) && Enabled(Exec(Front(run)), Last(run)))
  }

  function Exec(run: seq<Event>): State
    requires IsRun(run)
    decreases |run|, 1
  {
    if run == [] then INIT else Step(Exec(Front(run)), Last(run))
  }

  /** The outcome of the last event of a run. */
  function LastResult(run: seq<Event>): Outcome
    requires run != [] && IsRun(run)
  {
    Result(Exec(Front(run)), Last(run))
  }

  predicate EverStarted(run: seq<Event>) {
    exists i :: 0 <= i < |run| && run[i].Start?
  }

  /** The values returned by the successful increments since the latest start write. */
  function Returns(run: seq<Event>): seq<uint64>
    requires IsRun(run)
  {
    if run == [] then []
    else match LastResult(run)
      case Started => []
      case Incremented(v) => Returns(Front(run)) + [v]
      case _ => Returns(Front(run))
  }

  function Mismatches(run: seq<Event>, vm: VmId): nat
    requires IsRun(run)
  {
    if run == [] then 0
    else Mismatches(Front(run), vm) + if Last(run).vm == vm && LastResult(run).Mismatch? then 1 else 0
  }

  function Increments(run: seq<Event>, vm: VmId): nat
    requires IsRun(run)
  {
    if run == [] then 0
    else Increments(Front(run), vm) + if Last(run).vm == vm && LastResult(run).Incremented? then 1 else 0
  }

  function ForeignWrites(run: seq<Event>, vm: VmId): nat
    requires IsRun(run)
  {
    if run == [] then 0
    else ForeignWrites(Front(run), vm) + if Last(run).vm != vm && Writes(Exec(Front(run)), Last(run)) then 1 else 0
  }

  /** Some write followed the latest get of `vm`. */
  predicate WrittenSinceGet(run: seq<Event>, vm: VmId)
    requires IsRun(run)
  {
    run != [] && Last(run) != Get(vm) &&
    (Writes(Exec(Front(run)), Last(run)) || WrittenSinceGet(Front(run), vm))
  }

  // ---------- Safety ----------

  /** A VM that holds the current token also holds the current value. */
  ghost predicate Coherent(s: State) {
    && (s.cell.Some? ==> |s.cell.value.value| == 8 && 0 < s.cell.value.cas)
    && (forall vm :: vm in s.held ==>
          && s.cell.Some?
          && |s.held[vm].value| == 8
          && 0 < s.held[vm].cas
          && (s.held[vm].cas == s.cell.value.cas ==> s.held[vm] == s.cell.value))
  }

  lemma {:induction false} RunsAreCoherent(run: seq<Event>)
    requires IsRun(run)
    ensures Coherent(Exec(run))
    ensures Exec(run).cell.Some? <==> EverStarted(run)
  {
    if run != [] {
      RunsAreCoherent(Front(run));
      assert forall i :: 0 <= i < |run| - 1 ==> run[i] == Front(run)[i];
      if EverStarted(Front(run)) {
        var i :| 0 <= i < |Front(run)| && Front(run)[i].Start?;
        assert run[i].Start?;
      } else if EverStarted(run) {
        assert Last(run).Start?;
      }
      if Last(run).Start? {
        assert run[|run| - 1].Start?;
      }
    }
  }

  /** One successful compare-and-swap adds one to the value that is stored when it happens. */
  lemma SwapAddsOne(s: State, vm: VmId, token: nat)
    requires Coherent(s) && Possible(s, Set(vm, token)) && Result(s, Set(vm, token)).Incremented?
    ensures s.cell.Some?
    ensures Result(s, Set(vm, token)).value == (Decode(s.cell.value.value) + 1) % TWO_64
    ensures Decode(Step(s, Set(vm, token)).cell.value.value) == (Decode(s.cell.value.value) + 1) % TWO_64
  {
    DecodeEncode(Incr(s.held[vm].value));
  }

  /** What the stored value has to be when `successes` increments followed the latest start write. */
  function CounterValue(successes: nat): uint64 {
    (INITIAL_VALUE + successes) % TWO_64
  }

  lemma CounterValueStep(n: nat)
    ensures (CounterValue(n) + 1) % TWO_64 == CounterValue(n + 1)
  {
  }

  lemma SameCounterValue(m: nat, n: nat)
    requires m <= n
    ensures CounterValue(m) == CounterValue(n) <==> (n - m) % TWO_64 == 0
  {
    var k := (n - m) / TWO_64;
    assert n - m == k * TWO_64 + (n - m) % TWO_64;
  }

  /** No lost update: the value counts every success since the latest start write. */
  lemma {:induction false} NoLostUpdate(run: seq<Event>)
    requires IsRun(run) && EverStarted(run)
    ensures Exec(run).cell.Some?
    ensures |Exec(run).cell.value.value| == 8
    ensures Decode(Exec(run).cell.value.value) == (10000000 + |Returns(run)|) % 0x1_0000_0000_0000_0000
  {
    RunsAreCoherent(run);
    if Last(run).Start? {
      DecodeEncode(INITIAL_VALUE);
    } else {
      StartedBefore(run);
      NoLostUpdate(Front(run));
      if LastResult(run).Incremented? {
        SuccessAddsOne(run);
      }
    }
  }

  lemma SuccessAddsOne(run: seq<Event>)
    requires IsRun(run) && run != [] && LastResult(run).Incremented?
    requires Exec(Front(run)).cell.Some?
    requires Decode(Exec(Front(run)).cell.value.value) == CounterValue(|Returns(Front(run))|)
    ensures Decode(Exec(run).cell.value.value) == CounterValue(|Returns(run)|)
  {
    RunsAreCoherent(Front(run));
    SwapAddsOne(Exec(Front(run)), Last(run).vm, Last(run).token);
    CounterValueStep(|Returns(Front(run))|);
  }

  lemma StartedBefore(run: seq<Event>)
    requires run != [] && EverStarted(run) && !Last(run).Start?
    ensures EverStarted(Front(run))
  {
    var i :| 0 <= i < |run| && run[i].Start?;
    assert Front(run)[i].Start?;
  }

  /** The k-th success after the latest start write returns the initial value plus k. */
  lemma {:induction false} IncrementsAreAtomic(run: seq<Event>, k: nat)
    requires IsRun(run) && k < |Returns(run)|
    ensures Returns(run)[k] == (10000000 + k + 1) % 0x1_0000_0000_0000_0000
  {
    if k < |Returns(Front(run))| {
      IncrementsAreAtomic(Front(run), k);
    } else {
      SuccessReturnsNext(run);
    }
  }

  lemma SuccessReturnsNext(run: seq<Event>)
    requires IsRun(run) && run != [] && LastResult(run).Incremented?
    ensures LastResult(run).value == CounterValue(|Returns(run)|)
  {
    RunsAreCoherent(Front(run));
    SwapAddsOne(Exec(Front(run)), Last(run).vm, Last(run).token);
    NoLostUpdate(Front(run));
    CounterValueStep(|Returns(Front(run))|);
  }

  /** Two successes are told the same value exactly when a multiple of 2^64 of them lies between. */
  lemma ReturnsAreDistinct(run: seq<Event>, i: nat, j: nat)
    requires IsRun(run) && i < j < |Returns(run)|
    ensures Returns(run)[i] == Returns(run)[j] <==> (j - i) % 0x1_0000_0000_0000_0000 == 0
  {
    IncrementsAreAtomic(run, i);
    IncrementsAreAtomic(run, j);
    SameCounterValue(i + 1, j + 1);
  }

  // ---------- Progress ----------

  ghost predicate Stale(s: State, vm: VmId) {
    vm in s.held && s.cell.Some? && s.held[vm].cas != s.cell.value.cas
  }

  lemma {:induction false} StaleIffWritten(run: seq<Event>, vm: VmId)
    requires IsRun(run) && vm in Exec(run).held
    ensures Stale(Exec(run), vm) <==> WrittenSinceGet(run, vm)
  {
    RunsAreCoherent(run);
    RunsAreCoherent(Front(run));
    if Last(run) != Get(vm) {
      StaleIffWritten(Front(run), vm);
    }
  }

  /** A compare-and-swap fails exactly when somebody wrote since the get it belongs to. */
  lemma MismatchIffWritten(run: seq<Event>, vm: VmId, token: nat)
    requires IsRun(run) && Possible(Exec(run), Set(vm, token))
    ensures Result(Exec(run), Set(vm, token)).Mismatch? <==> WrittenSinceGet(run, vm)
  {
    RunsAreCoherent(run);
    StaleIffWritten(run, vm);
  }

  /** Freshness is what this rests on: a VM notices another VM's write exactly when its token is not the one held. */
  lemma NoticedIffFresh(s: State, e: Event, vm: VmId, token: nat)
    requires Coherent(s) && Possible(s, e) && Writes(s, e) && vm in s.held && e.vm != vm
    ensures Result(Step(s, e), Set(vm, token)).Mismatch? <==> e.token != s.held[vm].cas
  {
  }

  /** With a reused token two VMs that read the same value both succeed, and one of the updates is lost. */
  lemma ReusedTokenLosesUpdate(s: State, a: VmId, b: VmId, token: nat)
    requires Coherent(s) && a != b && a in s.held && b in s.held
    requires s.held[a] == s.cell.value && s.held[b] == s.cell.value
    ensures var t := Step(s, Set(a, s.held[b].cas)); var u := Step(t, Set(b, token));
            && Result(s, Set(a, s.held[b].cas)).Incremented?
            && Result(t, Set(b, token)).Incremented?
            && u.cell.value.value == t.cell.value.value
            && Decode(u.cell.value.value) == (Decode(s.cell.value.value) + 1) % TWO_64
  {
    SwapAddsOne(s, a, s.held[b].cas);
  }

  /**
   * From any moment at which a VM is between attempts: each mismatch it suffers afterwards, and the
   * one it is about to suffer, is paid for by another VM's write after that moment.
   */
  lemma {:induction false} MismatchesArePaidFor(before: seq<Event>, run: seq<Event>, vm: VmId)
    requires IsRun(before) && IsRun(run) && before <= run
    requires vm !in Exec(before).held
    ensures Mismatches(run, vm) - Mismatches(before, vm) + (if Stale(Exec(run), vm) then 1 else 0)
            <= ForeignWrites(run, vm) - ForeignWrites(before, vm)
  {
    if run != before {
      assert before <= Front(run);
      MismatchesArePaidFor(before, Front(run), vm);
      RunsAreCoherent(Front(run));
    }
  }

  // ---------- The code ----------

  /** The host's store for the key, with the other VMs that share it. */
  class Store {
    var cell: Option<Cell>
    var held: map<VmId, Cell>
    var lastToken: nat  // the largest token issued so far
    ghost var run: seq<Event>

    ghost predicate Valid()
      reads this
    {
      && IsRun(run)
      && Exec(run) == State(cell, held)
      && (cell.Some? ==> cell.value.cas <= lastToken)
      && (forall vm :: vm in held ==> held[vm].cas <= lastToken)
    }

    constructor ()
      ensures Valid() && run == []
    {
      cell, held, lastToken, run := None, map[], 0, [];
    }

    ghost method Record(e: Event)
      modifies this`run
      ensures run == old(run) + [e]
      ensures Front(run) == old(run) && Last(run) == e
    {
      run := run + [e];
    }

    method GetSharedData(vm: VmId) returns (r: Option<Cell>)
      requires Valid() && vm !in held
      modifies this
      ensures Valid() && run == old(run) + [Get(vm)] && Front(run) == old(run)
      ensures r == old(cell) == cell
      ensures r.Some? ==> vm in held && held[vm] == r.value
      ensures r.None? ==> vm !in held
    {
      r := cell;
      if cell.Some? {
        held := held[vm := cell.value];
      }
      Record(Get(vm));
    }

    /** The host compares tokens and, unless refused, stores the bytes under a new token. */
    method SetSharedData(vm: VmId, value: seq<byte>, cas: nat) returns (ok: bool)
      requires Valid() && vm in held && cas == held[vm].cas
      requires value == Encode(Incr(held[vm].value), 8)
      modifies this
      ensures Valid() && run == old(run) + [Set(vm, old(lastToken) + 1)] && Front(run) == old(run)
      ensures ok <==> LastResult(run).Incremented?
      ensures !ok <==> LastResult(run).Mismatch?
      ensures ok ==> LastResult(run).value == Incr(old(held)[vm].value)
      ensures vm !in held
    {
      ok := !Refuses(cell, cas);
      ghost var token := lastToken + 1;
      if ok {
        lastToken := lastToken + 1;
        cell := Some(Cell(value, lastToken));
      }
      held := held - {vm};
      Record(Set(vm, token));
    }

    /** OnVMStart. */
    method OnVMStart(vm: VmId)
      requires Valid()
      modifies this
      ensures Valid() && run == old(run) + [Start(vm, old(lastToken) + 1)]
      ensures cell.Some? && |cell.value.value| == 8 && Decode(cell.value.value) == 10000000
      ensures Returns(run) == []
    {
      var buf := new byte[8];
      PutUint64(buf, INITIAL_VALUE);
      assert buf[..] == buf[..8];
      lastToken := lastToken + 1;
      cell := Some(Cell(buf[..], lastToken));
      held := held - {vm};
      Record(Start(vm, lastToken));
      DecodeEncode(INITIAL_VALUE);
    }

    /** Another VM takes one step. */
    method Do(e: Event)
      requires Valid() && Enabled(State(cell, held), e)
      modifies this
      ensures Valid() && run == old(run) + [e] && Front(run) == old(run)
      ensures State(cell, held) == Step(old(State(cell, held)), e)
    {
      var s := Step(State(cell, held), e);
      cell, held := s.cell, s.held;
      if !e.Get? && lastToken < e.token {
        lastToken := e.token;
      }
      Record(e);
    }

    /** Other VMs take the scheduled steps that are possible. */
    method Others(me: VmId, schedule: seq<Event>)
      requires Valid()
      modifies this
      ensures Valid() && old(run) <= run
      ensures forall i :: |old(run)| <= i < |run| ==> run[i].vm != me
      ensures me in held <==> me in old(held)
      ensures me in held ==> held[me] == old(held)[me]
      ensures Increments(run, me) == Increments(old(run), me)
      ensures schedule == [] ==> run == old(run)
    {
      for i := 0 to |schedule|
        invariant Valid() && old(run) <= run
        invariant forall j :: |old(run)| <= j < |run| ==> run[j].vm != me
        invariant me in held <==> me in old(held)
        invariant me in held ==> held[me] == old(held)[me]
        invariant Increments(run, me) == Increments(old(run), me)
        invariant schedule == [] ==> run == old(run)
      {
        var e := schedule[i];
        if e.vm != me && Enabled(State(cell, held), e) {
          Do(e);
        }
      }
    }
  }

  /** One attempt of incrementData; `window` is what the other VMs do between its get and its set. */
  method IncrementData(store: Store, me: VmId, window: seq<Event>) returns (r: Outcome)
    requires store.Valid() && me !in store.held
    modifies store
    ensures store.Valid() && me !in store.held
    ensures old(store.run) < store.run
    ensures r == LastResult(store.run) && Last(store.run).vm == me
    ensures r.NotFound? || r.Mismatch? || r.Incremented?
    ensures r.NotFound? ==> !EverStarted(store.run)
    ensures r.Incremented? ==> r.value == (10000000 + |Returns(store.run)|) % 0x1_0000_0000_0000_0000
    ensures Increments(store.run, me) == Increments(old(store.run), me) + if r.Incremented? then 1 else 0
    ensures r.Mismatch? ==> window != []
  {
    var got := store.GetSharedData(me);
    RunsAreCoherent(store.run);
    if got.None? {
      return NotFound;
    }
    store.Others(me, window);
    RunsAreCoherent(store.run);
    var buf := new byte[8];
    var ret := (Decode(got.value.value) + 1) % TWO_64;
    PutUint64(buf, ret);
    assert buf[..] == buf[..8];
    var ok := store.SetSharedData(me, buf[..], got.value.cas);
    if ok {
      r := Incremented(ret);
      SuccessReturnsNext(store.run);
    } else {
      r := Mismatch;
    }
  }

  /**
   * OnHttpRequestHeaders: the retry loop, against every finite schedule of the other VMs.
   * It ends, and unless the key was never written it counts the request exactly once.
   */
  method OnHttpRequestHeaders(store: Store, me: VmId, schedule: seq<seq<Event>>) returns (logged: Option<uint64>)
    requires store.Valid() && me !in store.held
    modifies store
    ensures store.Valid() && me !in store.held && old(store.run) < store.run
    ensures logged.None? ==> !EverStarted(store.run)
    ensures logged.Some? ==> logged.value == (10000000 + |Returns(store.run)|) % 0x1_0000_0000_0000_0000
    ensures Increments(store.run, me) == Increments(old(store.run), me) + if logged.Some? then 1 else 0
    ensures Mismatches(store.run, me) - Mismatches(old(store.run), me)
            <= ForeignWrites(store.run, me) - ForeignWrites(old(store.run), me)
  {
    logged := None;
    var i := 0;
    while true
      invariant store.Valid() && me !in store.held && old(store.run) <= store.run
      invariant Increments(store.run, me) == Increments(old(store.run), me)
      decreases |schedule| - i
    {
      if i < |schedule| {
        store.Others(me, schedule[i]);
      }
      i := i + 1;
      var r := IncrementData(store, me, if i < |schedule| then schedule[i] else []);
      i := i + 1;
      if r.Incremented? {
        logged := Some(r.value);
      } else if r.Mismatch? {
        continue;
      }
      break;
    }
    MismatchesArePaidFor(old(store.run), store.run, me);
  }
}
