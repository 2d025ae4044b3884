/** The order service (dev/grpc/basic/server/order.go). */
module OrderStore {
  import opened Common
  import opened GroupBy
  import opened Text

  type Store = map<string, Order>

  /** What the store holds after a sequence of writes. */
  function Apply(store: Store, writes: seq<Order>): Store {
    if writes == [] then store
    else Apply(store, Front(writes))[Last(writes).id := Last(writes)]
  }

  function LastSent(writes: seq<Order>, id: string): Option<Order> {
    if writes == [] then None
    else if Last(writes).id == id then Some(Last(writes))
    else LastSent(Front(writes), id)
  }

  /** The last order sent for an id is the one that is kept; other ids are untouched. */
  lemma {:induction false} LastWriteWins(store: Store, writes: seq<Order>, id: string)
    ensures LastSent(writes, id).Some? ==>
              id in Apply(store, writes) && Apply(store, writes)[id] == LastSent(writes, id).value
    ensures LastSent(writes, id).None? ==> (id in Apply(store, writes) <==> id in store)
    ensures LastSent(writes, id).None? && id in store ==> Apply(store, writes)[id] == store[id]
    ensures LastSent(writes, id).Some? <==> exists i :: 0 <= i < |writes| && writes[i].id == id
  {
    if writes != [] {
      LastWriteWins(store, Front(writes), id);
      assert writes == Front(writes) + [Last(writes)];
    }
  }

  lemma {:induction false} ApplyConcat(store: Store, first: seq<Order>, second: seq<Order>)
    ensures Apply(store, first + second) == Apply(Apply(store, first), second)
  {
    if second == [] {
      assert first + second == first;
    } else {
      ApplyConcat(store, first, Front(second));
      assert Front(first + second) == first + Front(second);
    }
  }

  // ---------- Writes of a client stream among those of other calls ----------

  /** An order received by UpdateOrders, and the writes of other calls that precede it. */
  datatype Update = Update(order: Order, others: seq<Order>)

  function Received(updates: seq<Update>): seq<Order> {
    seq(|updates|, i requires 0 <= i < |updates| => updates[i].order)
  }

  /** All writes in the order in which they happen. */
  function Writes(updates: seq<Update>): seq<Order> {
    if updates == [] then [] else Writes(Front(updates)) + Last(updates).others + [Last(updates).order]
  }

  lemma {:induction false} LastSentSkips(writes: seq<Order>, others: seq<Order>, id: string)
    requires forall i :: 0 <= i < |others| ==> others[i].id != id
    ensures LastSent(writes + others, id) == LastSent(writes, id)
  {
    if others == [] {
      assert writes + others == writes;
    } else {
      LastSentSkips(writes, Front(others), id);
      assert Front(writes + others) == writes + Front(others);
    }
  }

  /** For an id that no other call writes, the stream's own last order for it is the last one of all. */
  lemma {:induction false} OwnWritesWin(updates: seq<Update>, id: string)
    requires forall i, j :: 0 <= i < |updates| && 0 <= j < |updates[i].others| ==> updates[i].others[j].id != id
    ensures LastSent(Writes(updates), id) == LastSent(Received(updates), id)
  {
    if updates != [] {
      var before, last := Front(updates), Last(updates);
      OwnWritesWin(before, id);
      LastSentSkips(Writes(before), last.others, id);
      assert Front(Writes(updates)) == Writes(before) + last.others;
      assert Front(Received(updates)) == Received(before);
    }
  }

  // ---------- The reply of UpdateOrders ----------

  function Listing(ids: seq<string>): string {
    if ids == [] then "" else Listing(Front(ids)) + Last(ids) + ", "
  }

  function Ids(orders: seq<Order>): seq<string> {
    seq(|orders|, i requires 0 <= i < |orders| => orders[i].id)
  }

  /** A client that reads the ids back, cutting at each comma followed by a blank. */
  function ParseListing(text: string): Option<seq<string>>
    decreases |text|
  {
    if text == "" then Some([])
    else match IndexOf(text, ", ")
      case None => None
      case Some(i) =>
        match ParseListing(text[i + 2..])
        case None => None
        case Some(rest) => Some([text[..i]] + rest)
  }

  lemma {:induction false} ListingCons(id: string, ids: seq<string>)
    ensures Listing([id] + ids) == id + ", " + Listing(ids)
  {
    if ids == [] {
      assert Front([id] + ids) == [];
    } else {
      ListingCons(id, Front(ids));
      assert Front([id] + ids) == [id] + Front(ids);
    }
  }

  lemma ListingOne(id: string)
    ensures Listing([id]) == id + ", "
  {
    assert Front([id]) == [];
  }

  /** The listing is the ids one after the other, each followed by a comma and a blank. */
  lemma {:induction false} ListingConcat(ids: seq<string>, more: seq<string>)
    ensures Listing(ids + more) == Listing(ids) + Listing(more)
  {
    if more == [] {
      assert ids + more == ids;
    } else {
      ListingConcat(ids, Front(more));
      assert Front(ids + more) == ids + Front(more);
    }
  }

  lemma CutAfterId(id: string, rest: string)
    requires !Contains(id, ", ")
    ensures IndexOf(id + ", " + rest, ", ") == Some(|id|)
  {
    var text := id + ", " + rest;
    assert text[|id|..|id| + 2] == ", ";
    forall j | 0 <= j < |id|
      ensures !OccursAt(text, ", ", j)
    {
      if OccursAt(text, ", ", j) {
        assert text[j..j + 2][1] == text[j + 1];
        assert id[j..j + 2] == text[j..j + 2];
        assert OccursAt(id, ", ", j);
      }
    }
    FoundFirst(text, ", ", |id|);
  }

  lemma {:induction false} ParsedIdsAreClean(text: string)
    requires ParseListing(text).Some?
    ensures forall i :: 0 <= i < |ParseListing(text).value| ==> !Contains(ParseListing(text).value[i], ", ")
    decreases |text|
  {
    if text != "" {
      NothingBeforeFirst(text, ", ");
      ParsedIdsAreClean(text[IndexOf(text, ", ").value + 2..]);
    }
  }

  lemma {:induction false} CleanIdsParse(ids: seq<string>)
    requires forall i :: 0 <= i < |ids| ==> !Contains(ids[i], ", ")
    ensures ParseListing(Listing(ids)) == Some(ids)
  {
    if ids != [] {
      var id, rest := ids[0], Listing(ids[1..]);
      assert ids == [id] + ids[1..];
      ListingCons(id, ids[1..]);
      CutAfterId(id, rest);
      var text := id + ", " + rest;
      assert text[|id| + 2..] == rest && text[..|id|] == id;
      CleanIdsParse(ids[1..]);
    }
  }

  /** The ids can be read back from the reply exactly when none of them contains a comma and a blank. */
  lemma ReplyRoundTrip(ids: seq<string>)
    ensures ParseListing(Listing(ids)) == Some(ids) <==> forall i :: 0 <= i < |ids| ==> !Contains(ids[i], ", ")
  {
    if ParseListing(Listing(ids)) == Some(ids) {
      ParsedIdsAreClean(Listing(ids));
    } else if forall i :: 0 <= i < |ids| ==> !Contains(ids[i], ", ") {
      CleanIdsParse(ids);
    }
  }

  /** What one received order adds to the writes and to the reply. */
  lemma UpdateStep(store: Store, updates: seq<Update>, i: nat)
    requires i < |updates|
    ensures Apply(store, Writes(updates[..i + 1])) ==
            Apply(Apply(store, Writes(updates[..i])), updates[i].others)[updates[i].order.id := updates[i].order]
    ensures Listing(Ids(Received(updates[..i + 1]))) ==
            Listing(Ids(Received(updates[..i]))) + updates[i].order.id + ", "
  {
    var before, now := updates[..i], updates[..i + 1];
    assert Front(now) == before;
    ApplyConcat(store, Writes(before), updates[i].others);
    assert Front(Writes(now)) == Writes(before) + updates[i].others;
    assert Front(Ids(Received(now))) == Ids(Received(before));
  }

  // ---------- Search ----------

  /** How many items of an order contain the query. */
  function Matches(items: seq<string>, query: string): nat {
    if items == [] then 0
    else Matches(Front(items), query) + if Contains(Last(items), query) then 1 else 0
  }

  ghost predicate Keyed(store: Store) {
    forall k :: k in store ==> store[k].id == k
  }

  lemma {:induction false} ApplyKeepsKeys(store: Store, writes: seq<Order>)
    requires Keyed(store)
    ensures Keyed(Apply(store, writes))
  {
    if writes != [] {
      ApplyKeepsKeys(store, Front(writes));
    }
  }

  /** One text stands somewhere inside another. */
  ghost predicate IsInside(part: string, s: string) {
    exists before: string, after: string :: s == before + part + after
  }

  /** The positions of the items that the query stands in. */
  ghost function MatchingItems(items: seq<string>, query: string): set<nat> {
    set i: nat | i < |items| && IsInside(query, items[i])
  }

  lemma ContainsMeans(s: string, part: string)
    ensures Contains(s, part) <==> IsInside(part, s)
  {
    if Contains(s, part) {
      var i :| 0 <= i <= |s| && OccursAt(s, part, i);
      assert s == s[..i] + part + s[i + |part|..];
    }
    if IsInside(part, s) {
      var before, after :| s == before + part + after;
      assert OccursAt(s, part, |before|);
    }
  }

  lemma MatchingItemsSnoc(items: seq<string>, item: string, query: string)
    ensures |MatchingItems(items + [item], query)| == |MatchingItems(items, query)| + if IsInside(query, item) then 1 else 0
  {
    var p := (s: string) => IsInside(query, s);
    WhereSnoc(items, item, p);
    assert MatchingItems(items, query) == Where(items, p);
    assert MatchingItems(items + [item], query) == Where(items + [item], p);
  }

  /** The count of the code is the number of those positions. */
  lemma {:induction false} MatchesMeans(items: seq<string>, query: string)
    ensures Matches(items, query) == |MatchingItems(items, query)|
  {
    if items == [] {
      assert MatchingItems(items, query) == {};
    } else {
      MatchesMeans(Front(items), query);
      ContainsMeans(Last(items), query);
      MatchingItemsSnoc(Front(items), Last(items), query);
      assert items == Front(items) + [Last(items)];
    }
  }

  /** How often a search has to send an order: once for each item that contains the query. */
  ghost function Hits(store: Store, query: string, o: Order): nat {
    if o.id in store && store[o.id] == o then |MatchingItems(o.items, query)| else 0
  }
}

module OrderService {
  import opened Common
  import opened GroupBy
  import opened GroupByProofs
  import opened OrderStore
  import opened Text

  const ORDER_BATCH_SIZE := 3

  /** The sending side of a stream; the transport fails after `limit` messages. */
  class SendStream<T> {
    const limit: nat
    var sent: seq<T>

    constructor (limit: nat)
      ensures this.limit == limit && sent == []
    {
      this.limit := limit;
      sent := [];
    }

    method Send(x: T) returns (ok: bool)
      modifies this
      ensures ok <==> |old(sent)| < limit
      ensures sent == if ok then old(sent) + [x] else old(sent)
    {
      ok := |sent| < limit;
      if ok {
        sent := sent + [x];
      }
    }
  }

  /** How the receiving side ends. */
  datatype End = Eof | RecvError

  /** An id received by ProcessOrders, and the writes of other calls that precede it. */
  datatype Arrival = Arrival(id: string, others: seq<Order>)

  datatype Outcome = Done | RecvFailed | SendFailed | Panicked

  /** The orders looked up for the received ids, up to the first id without a shippable order. */
  function Lookups(store: Store, arrivals: seq<Arrival>): seq<Shippable>
    decreases |arrivals|
  {
    if arrivals == [] then []
    else
      var now := Apply(store, arrivals[0].others);
      if arrivals[0].id in now && now[arrivals[0].id].addresses != []
      then [now[arrivals[0].id]] + Lookups(now, arrivals[1..])
      else []
  }

  /** The store after the writes that other calls made while the arrivals were processed. */
  function StoreAfter(store: Store, arrivals: seq<Arrival>): Store {
    if arrivals == [] then store else Apply(StoreAfter(store, Front(arrivals)), Last(arrivals).others)
  }

  /** The first `i` arrivals have been looked up, giving `taken` and the store `now`. */
  ghost predicate LookedUp(store: Store, arrivals: seq<Arrival>, i: nat, taken: seq<Shippable>, now: Store)
    requires i <= |arrivals|
  {
    && |taken| == i
    && now == StoreAfter(store, arrivals[..i])
    && taken + Lookups(now, arrivals[i..]) == Lookups(store, arrivals)
  }

  lemma LookedUpStart(store: Store, arrivals: seq<Arrival>)
    ensures LookedUp(store, arrivals, 0, [], store)
  {
    assert arrivals[..0] == [] && arrivals[0..] == arrivals;
  }

  lemma LookedUpStep(store: Store, arrivals: seq<Arrival>, i: nat, taken: seq<Shippable>, now: Store)
    requires i < |arrivals| && LookedUp(store, arrivals, i, taken, now)
    ensures var next, id := Apply(now, arrivals[i].others), arrivals[i].id;
            if id in next && next[id].addresses != []
            then LookedUp(store, arrivals, i + 1, taken + [next[id]], next)
            else taken == Lookups(store, arrivals)
  {
    assert arrivals[i..][0] == arrivals[i] && arrivals[i..][1..] == arrivals[i + 1..];
    assert Front(arrivals[..i + 1]) == arrivals[..i];
  }

  lemma {:induction false} StoreAfterCons(store: Store, a: Arrival, rest: seq<Arrival>)
    ensures StoreAfter(store, [a] + rest) == StoreAfter(Apply(store, a.others), rest)
  {
    if rest == [] {
      assert Front([a] + rest) == [];
    } else {
      StoreAfterCons(store, a, Front(rest));
      assert Front([a] + rest) == [a] + Front(rest);
    }
  }

  /** A looked-up order is the one stored under the id when the id arrived; the list stops at the first unusable id. */
  lemma {:induction false} LookupAt(store: Store, arrivals: seq<Arrival>, i: nat)
    requires i < |arrivals| && i <= |Lookups(store, arrivals)|
    ensures var now, id := StoreAfter(store, arrivals[..i + 1]), arrivals[i].id;
            if i < |Lookups(store, arrivals)| then id in now && Lookups(store, arrivals)[i] == now[id]
            else id !in now || now[id].addresses == []
    decreases i
  {
    assert arrivals[..i + 1] == [arrivals[0]] + arrivals[1..i + 1];
    StoreAfterCons(store, arrivals[0], arrivals[1..i + 1]);
    if i == 0 {
      assert arrivals[1..1] == [];
    } else {
      LookupAt(Apply(store, arrivals[0].others), arrivals[1..], i - 1);
      assert arrivals[1..][..i] == arrivals[1..i + 1];
    }
  }

  /** The shipment map of the code holds exactly the groups of the current window. */
  ghost predicate Holds(shipments: map<string, CombinedShipment>, w: seq<Shippable>) {
    && shipments.Keys == Destinations(w)
    && forall a :: a in shipments ==> shipments[a] == Shipment(w, a)
  }

  /** The state of the loop after the orders `taken`. */
  ghost predicate Batching(b: nat, taken: seq<Shippable>, batchMarker: nat,
                           shipments: map<string, CombinedShipment>, sent: seq<CombinedShipment>)
  {
    && batchMarker == Marker(b, |taken|)
    && Holds(shipments, Rest(b, taken))
    && BrokenOff(b, taken, sent)
  }

  /** What a complete or broken-off output spells out, and what it conserves. */
  lemma OutputMeans(b: nat, taken: seq<Shippable>, sent: seq<CombinedShipment>)
    requires b > 0
    ensures Complete(b, taken, sent) ==>
              && IsGrouping(Windows(b, taken) + [Rest(b, taken)], sent)
              && multiset(Contents(sent)) == multiset(AsOrders(taken))
    ensures BrokenOff(b, taken, sent) ==>
              && IsGrouping(Windows(b, taken), sent)
              && multiset(Contents(sent)) + multiset(AsOrders(Rest(b, taken))) == multiset(AsOrders(taken))
  {
    if Complete(b, taken, sent) {
      GroupsMeans(Windows(b, taken) + [Rest(b, taken)], sent);
      CompleteRunConserves(b, taken, sent);
    }
    if BrokenOff(b, taken, sent) {
      GroupsMeans(Windows(b, taken), sent);
      BrokenRunLosesTheRest(b, taken, sent);
    }
  }

  lemma StartBatching(b: nat)
    requires b > 0
    ensures Batching(b, [], 1, map[], [])
  {
    GroupsNothing();
    MarkerStart(b);
  }

  lemma DestinationsSnoc(w: seq<Shippable>, o: Shippable)
    ensures Destinations(w + [o]) == Destinations(w) + {Destination(o)}
  {
    assert forall x :: x in w + [o] <==> x in w || x == o;
    assert o in w + [o];
    forall a | a in Destinations(w)
      ensures a in Destinations(w + [o])
    {
      var x: Shippable :| x in w && Destination(x) == a;
      assert x in w + [o];
    }
  }

  lemma HoldsMeans(shipments: map<string, CombinedShipment>, w: seq<Shippable>)
    requires Holds(shipments, w)
    ensures forall a :: a in shipments ==> IsShipment(shipments[a], w, a)
  {
    forall a | a in shipments
      ensures IsShipment(shipments[a], w, a)
    {
      ShipmentMeans(w, a);
    }
  }

  lemma {:induction false} BoundNone(w: seq<Shippable>, to: string)
    requires to !in Destinations(w)
    ensures Bound(w, to) == []
  {
    if w != [] {
      assert w == Front(w) + [Last(w)];
      DestinationsSnoc(Front(w), Last(w));
      BoundNone(Front(w), to);
    }
  }

  /** What the branch of the code that adds one order does to the shipment map. */
  lemma AddToShipment(shipments: map<string, CombinedShipment>, w: seq<Shippable>, o: Shippable)
    requires Holds(shipments, w)
    ensures Destination(o) !in shipments ==> Bound(w, Destination(o)) == []
    ensures Holds(shipments[Destination(o) := Shipment(w + [o], Destination(o))], w + [o])
  {
    var d := Destination(o);
    DestinationsSnoc(w, o);
    if d !in shipments {
      BoundNone(w, d);
    }
    var longer := w + [o];
    assert Front(longer) == w && Last(longer) == o;
    forall a | a in shipments && a != d
      ensures shipments[a] == Shipment(longer, a)
    {
    }
  }

  class OrderManagement {
    var orders: Store

    ghost predicate Valid()
      reads this
    {
      Keyed(orders)
    }

    constructor ()
      ensures Valid() && orders == map[]
    {
      orders := map[];
    }

    method AddOrder(order: Order) returns (reply: string)
      requires Valid()
      modifies this
      ensures Valid() && orders == Apply(old(orders), [order])
      ensures reply == "Order Added: " + order.id
    {
      orders := orders[order.id := order];
      assert Front([order]) == [];
      reply := "Order Added: " + order.id;
    }

    method GetOrder(id: string) returns (r: Option<Order>)
      ensures r.Some? <==> id in orders
      ensures r.Some? ==> r.value == orders[id]
    {
      r := if id in orders then Some(orders[id]) else None;
    }

    /** None when a receive error other than end of stream makes the handler panic. */
    method UpdateOrders(updates: seq<Update>, end: End) returns (reply: Option<string>)
      requires Valid()
      modifies this
      ensures Valid() && orders == Apply(old(orders), Writes(updates))
      ensures end.Eof? ==> reply == Some("Orders processed " + ("Updated Order IDs : " + Listing(Ids(Received(updates)))))
      ensures end.RecvError? ==> reply == None
    {
      var head := "Updated Order IDs : ";
      var ordersStr := head;
      for i := 0 to |updates|
        invariant orders == Apply(old(orders), Writes(updates[..i]))
        invariant ordersStr == head + Listing(Ids(Received(updates[..i])))
      {
        var order := updates[i].order;
        UpdateStep(old(orders), updates, i);
        orders := Apply(orders, updates[i].others);
        orders := orders[order.id := order];
        ordersStr := ordersStr + order.id + ", ";
      }
      assert updates[..|updates|] == updates;
      ApplyKeepsKeys(old(orders), Writes(updates));
      reply := if end.Eof? then Some("Orders processed " + ordersStr) else None;
    }

    /** The inner loop of SearchOrders. */
    method SendMatches(query: string, stream: SendStream<Order>, order: Order) returns (ok: bool)
      requires order !in stream.sent
      modifies stream
      ensures ok ==> multiset(stream.sent) == multiset(old(stream.sent))[order := Matches(order.items, query)]
      ensures !ok ==>
                && (forall o :: o != order ==> multiset(stream.sent)[o] == multiset(old(stream.sent))[o])
                && multiset(stream.sent)[order] <= Matches(order.items, query)
                && stream.limit <= |stream.sent|
    {
      for i := 0 to |order.items|
        invariant multiset(stream.sent) == multiset(old(stream.sent))[order := Matches(order.items[..i], query)]
      {
        assert Front(order.items[..i + 1]) == order.items[..i];
        MatchesPrefix(order.items, query, i + 1);
        if Contains(order.items[i], query) {
          ok := stream.Send(order);
          if !ok {
            return;
          }
        }
      }
      assert order.items[..|order.items|] == order.items;
      ok := true;
    }

    /** Sends each order as often as it has items that contain the query, whatever the map order. */
    method SearchOrders(query: string, stream: SendStream<Order>) returns (ok: bool)
      requires Valid() && stream.sent == []
      modifies stream
      ensures ok ==> forall o :: multiset(stream.sent)[o] == Hits(orders, query, o)
      ensures !ok ==> forall o :: multiset(stream.sent)[o] <= Hits(orders, query, o)
      ensures !ok ==> stream.limit <= |stream.sent|
    {
      var left := orders.Keys;
      while left != {}
        invariant left <= orders.Keys
        invariant forall o :: multiset(stream.sent)[o] == if o.id in left then 0 else Hits(orders, query, o)
      {
        var k :| k in left;
        var order := orders[k];
        assert multiset(stream.sent)[order] == 0;
        MatchesMeans(order.items, query);
        ok := SendMatches(query, stream, order);
        if !ok {
          return;
        }
        left := left - {k};
      }
      ok := true;
    }

    /** The flush loop: sends every shipment of the map once, in an order chosen by the map. */
    method SendAll(stream: SendStream<CombinedShipment>, shipments: map<string, CombinedShipment>,
                 ghost w: seq<Shippable>)
      returns (ok: bool, ghost visit: seq<string>)
      requires Holds(shipments, w)
      modifies stream
      ensures Visits(visit, w)
      ensures old(stream.sent) <= stream.sent <= old(stream.sent) + Shipments(w, visit)
      ensures ok ==> stream.sent == old(stream.sent) + Shipments(w, visit)
      ensures !ok ==> stream.sent != old(stream.sent) + Shipments(w, visit) && stream.limit <= |stream.sent|
    {
      var left := shipments.Keys;
      ghost var done: seq<string> := [];
      while left != {}
        invariant left <= shipments.Keys
        invariant NoDuplicates(done)
        invariant forall a :: a in done <==> a in shipments.Keys - left
        invariant stream.sent == old(stream.sent) + Shipments(w, done)
      {
        var a :| a in left;
        ok := stream.Send(shipments[a]);
        if !ok {
          ghost var rest := Enumerate(left);
          NoDuplicatesConcat(done, rest);
          visit := done + rest;
          assert forall i :: 0 <= i < |done| ==> Shipments(w, visit)[i] == Shipments(w, done)[i];
          assert a in rest;
          return;
        }
        assert Shipments(w, done + [a]) == Shipments(w, done) + [shipments[a]];
        NoDuplicatesConcat(done, [a]);
        done := done + [a];
        left := left - {a};
      }
      ok, visit := true, done;
    }

    /** A flush sends one shipment per first address, each listing its orders in arrival order. */
    method Flush(stream: SendStream<CombinedShipment>, shipments: map<string, CombinedShipment>,
                 ghost w: seq<Shippable>)
      returns (ok: bool, ghost visit: seq<string>)
      requires Holds(shipments, w)
      modifies stream
      ensures Visits(visit, w) && IsFlush(Shipments(w, visit), w)
      ensures old(stream.sent) <= stream.sent <= old(stream.sent) + Shipments(w, visit)
      ensures ok ==> stream.sent == old(stream.sent) + Shipments(w, visit)
      ensures !ok ==> stream.sent != old(stream.sent) + Shipments(w, visit) && stream.limit <= |stream.sent|
    {
      ok, visit := SendAll(stream, shipments, w);
      FlushMeans(w, visit);
    }

    /** The branch of the code that adds one order to the shipment map. */
    method Combine(shipments: map<string, CombinedShipment>, ord: Shippable, ghost w: seq<Shippable>)
      returns (r: map<string, CombinedShipment>)
      requires Holds(shipments, w)
      ensures Holds(r, w + [ord])
      ensures forall a :: a in r ==> IsShipment(r[a], w + [ord], a)
    {
      var destination := ord.addresses[0].address;
      AddToShipment(shipments, w, ord);
      assert Front(w + [ord]) == w;
      if destination in shipments {
        var shipment := shipments[destination];
        r := shipments[destination := shipment.(orderList := shipment.orderList + [ord])];
      } else {
        r := shipments[destination := CombinedShipment("cmb - " + destination, "Processed!", [ord])];
      }
      HoldsMeans(r, w + [ord]);
    }

    /** The part of the loop body after the lookup: combine, and flush when the marker says so. */
    method Accept(ord: Shippable, stream: SendStream<CombinedShipment>, b: nat,
                  marker: nat, shipments: map<string, CombinedShipment>, ghost taken: seq<Shippable>)
      returns (ok: bool, batchMarker: nat, combinedShipmentMap: map<string, CombinedShipment>,
               ghost full: seq<CombinedShipment>)
      requires Batching(b, taken, marker, shipments, stream.sent)
      modifies stream
      ensures ok ==> Batching(b, taken + [ord], batchMarker, combinedShipmentMap, stream.sent)
      ensures !ok ==>
                && BrokenOff(b, taken + [ord], full)
                && stream.sent < full
                && stream.limit <= |stream.sent|
    {
      ghost var w, flushed, before := Rest(b, taken), Windows(b, taken), stream.sent;
      combinedShipmentMap := Combine(shipments, ord, w);
      MarkerStep(b, taken, ord);
      batchMarker := marker;
      if batchMarker == b {
        ghost var visit;
        ok, visit := Flush(stream, combinedShipmentMap, w + [ord]);
        GroupsSnoc(flushed, before, w + [ord], visit);
        full := before + Shipments(w + [ord], visit);
        batchMarker := 0;
        combinedShipmentMap := map[];
      } else {
        batchMarker := batchMarker + 1;
        ok, full := true, [];
      }
    }

    /** The RPC: the batching loop with the batch constant of the service. */
    method ProcessOrders(arrivals: seq<Arrival>, end: End, stream: SendStream<CombinedShipment>)
      returns (outcome: Outcome, ghost taken: seq<Shippable>, ghost full: seq<CombinedShipment>)
      requires Valid() && stream.sent == []
      modifies this, stream
      ensures Valid()
      ensures taken <= Lookups(old(orders), arrivals) && |taken| <= |arrivals|
      ensures outcome.Done? ==>
                && end.Eof? && |taken| == |arrivals|
                && IsGrouping(Windows(3, taken) + [Rest(3, taken)], stream.sent)
                && multiset(Contents(stream.sent)) == multiset(AsOrders(taken))
      ensures outcome.RecvFailed? ==> end.RecvError? && |taken| == |arrivals|
      ensures outcome.Panicked? ==> taken == Lookups(old(orders), arrivals) && |taken| < |arrivals|
      ensures outcome.RecvFailed? || outcome.Panicked? ==>
                && IsGrouping(Windows(3, taken), stream.sent)
                && multiset(Contents(stream.sent)) + multiset(AsOrders(Rest(3, taken))) == multiset(AsOrders(taken))
      ensures outcome.SendFailed? ==>
                && stream.sent < full
                && stream.limit <= |stream.sent|
                && (IsGrouping(Windows(3, taken), full) || IsGrouping(Windows(3, taken) + [Rest(3, taken)], full))
                && multiset(Contents(stream.sent)) <= multiset(AsOrders(taken))
    {
      outcome, taken, full := ProcessInBatches(arrivals, end, stream, ORDER_BATCH_SIZE);
      OutputMeans(3, taken, if outcome.SendFailed? then full else stream.sent);
      if outcome.SendFailed? {
        FailedSendDuplicatesNothing(3, taken, full, stream.sent);
      }
    }

    /**
     * The loop of ProcessOrders refines the windowed group-by, for any positive batch constant.
     * `taken` are the orders it looked up before it stopped, and `full` is what it would have
     * sent had no send failed.
     */
    method ProcessInBatches(arrivals: seq<Arrival>, end: End, stream: SendStream<CombinedShipment>, b: nat)
      returns (outcome: Outcome, ghost taken: seq<Shippable>, ghost full: seq<CombinedShipment>)
      requires Valid() && stream.sent == [] && 0 < b
      modifies this, stream
      ensures Valid()
      ensures taken <= Lookups(old(orders), arrivals) && |taken| <= |arrivals|
      ensures outcome.Done? ==> end.Eof? && |taken| == |arrivals| && Complete(b, taken, stream.sent)
      ensures outcome.RecvFailed? ==> end.RecvError? && |taken| == |arrivals| && BrokenOff(b, taken, stream.sent)
      ensures outcome.Panicked? ==>
                && taken == Lookups(old(orders), arrivals)
                && |taken| < |arrivals|
                && BrokenOff(b, taken, stream.sent)
      ensures outcome.SendFailed? ==>
                && stream.sent < full
                && stream.limit <= |stream.sent|
                && (BrokenOff(b, taken, full) || (end.Eof? && |taken| == |arrivals| && Complete(b, taken, full)))
      ensures outcome.Panicked? || orders == StoreAfter(old(orders), arrivals[..|taken|])
    {
      var batchMarker := 1;
      var combinedShipmentMap: map<string, CombinedShipment> := map[];
      taken, full := [], [];
      StartBatching(b);
      LookedUpStart(orders, arrivals);
      for i := 0 to |arrivals|
        invariant Valid()
        invariant LookedUp(old(orders), arrivals, i, taken, orders)
        invariant Batching(b, taken, batchMarker, combinedShipmentMap, stream.sent)
      {
        var orderId := arrivals[i].id;
        ApplyKeepsKeys(orders, arrivals[i].others);
        LookedUpStep(old(orders), arrivals, i, taken, orders);
        orders := Apply(orders, arrivals[i].others);
        if orderId !in orders || orders[orderId].addresses == [] {
          outcome := Panicked;
          return;
        }
        var ord: Shippable := orders[orderId];
        var ok;
        ok, batchMarker, combinedShipmentMap, full := Accept(ord, stream, b, batchMarker, combinedShipmentMap, taken);
        taken := taken + [ord];
        if !ok {
          outcome := SendFailed;
          return;
        }
      }
      if end.RecvError? {
        outcome := RecvFailed;
        return;
      }
      var ok;
      ok, full := Finish(stream, b, batchMarker, combinedShipmentMap, taken);
      outcome := if ok then Done else SendFailed;
    }

    /** The flush at the end of the stream. */
    method Finish(stream: SendStream<CombinedShipment>, b: nat, ghost marker: nat,
                  shipments: map<string, CombinedShipment>, ghost taken: seq<Shippable>)
      returns (ok: bool, ghost full: seq<CombinedShipment>)
      requires Batching(b, taken, marker, shipments, stream.sent)
      modifies stream
      ensures Complete(b, taken, full)
      ensures ok ==> stream.sent == full
      ensures !ok ==> stream.sent < full && stream.limit <= |stream.sent|
    {
      ghost var before, visit := stream.sent, [];
      ok, visit := Flush(stream, shipments, Rest(b, taken));
      GroupsSnoc(Windows(b, taken), before, Rest(b, taken), visit);
      full := before + Shipments(Rest(b, taken), visit);
    }
  }

  lemma {:induction false} MatchesPrefix(items: seq<string>, query: string, n: nat)
    requires n <= |items|
    ensures Matches(items[..n], query) <= Matches(items, query)
  {
    if n == |items| {
      assert items[..n] == items;
    } else {
      MatchesPrefix(Front(items), query, n);
      assert Front(items)[..n] == items[..n];
    }
  }
}
