/**
 * What ProcessOrders (dev/grpc/basic/server/order.go) is meant to compute: the
 * received orders are cut into windows, and each window is grouped by destination.
 * Nothing here mentions the batch marker or the shipment map of the code.
 */
module GroupBy {
  import opened Common

  datatype AddressType = HOME | WORK | OTHER

  datatype Address = Address(address: string, kind: AddressType)

  datatype Order = Order(id: string, items: seq<string>, description: string, price: real, addresses: seq<Address>)

  datatype CombinedShipment = CombinedShipment(id: string, status: string, orderList: seq<Order>)

  /** An order that can be shipped: it has a first address. */
  type Shippable = o: Order | o.addresses != []
    witness Order("", [], "", 0.0, [Address("", HOME)])

  function Destination(o: Shippable): string {
    o.addresses[0].address
  }

  // ---------- Grouping one window ----------

  /** The orders of a window that go to one destination, in arrival order. */
  function Bound(w: seq<Shippable>, to: string): seq<Order> {
    if w == [] then []
    else Bound(Front(w), to) + if Destination(Last(w)) == to then [Last(w)] else []
  }

  ghost function Destinations(w: seq<Shippable>): set<string> {
    set o | o in w :: Destination(o)
  }

  function Shipment(w: seq<Shippable>, to: string): CombinedShipment {
    CombinedShipment("cmb - " + to, "Processed!", Bound(w, to))
  }

  function Shipments(w: seq<Shippable>, order: seq<string>): seq<CombinedShipment> {
    seq(|order|, i requires 0 <= i < |order| => Shipment(w, order[i]))
  }

  /** One of the orders in which the destinations of a window can be visited. */
  ghost predicate Visits(order: seq<string>, w: seq<Shippable>) {
    NoDuplicates(order) && forall a :: a in order <==> a in Destinations(w)
  }

  // ---------- Cutting the stream into windows ----------

  /** With batch constant `b`, flush `j` ends after this many orders (and the next window starts there). */
  function Boundary(b: nat, j: nat): nat {
    if j == 0 then 0 else j * (b + 1) - 1
  }

  function Flushes(b: nat, n: nat): nat {
    (n + 1) / (b + 1)
  }

  lemma BoundaryWithin(b: nat, n: nat, j: nat)
    requires j <= Flushes(b, n)
    ensures Boundary(b, j) <= n
    ensures j < Flushes(b, n) ==> Boundary(b, j) <= Boundary(b, j + 1) <= n
  {
    var q := Flushes(b, n);
    assert q * (b + 1) <= n + 1;
    assert j * (b + 1) <= q * (b + 1);
    if j < q {
      assert (j + 1) * (b + 1) <= q * (b + 1);
      assert (j + 1) * (b + 1) == j * (b + 1) + (b + 1);
    }
  }

  function Window(b: nat, orders: seq<Shippable>, j: nat): seq<Shippable>
    requires j < Flushes(b, |orders|)
  {
    BoundaryWithin(b, |orders|, j);
    orders[Boundary(b, j)..Boundary(b, j + 1)]
  }

  /** The windows that are flushed while the stream is still open. */
  function Windows(b: nat, orders: seq<Shippable>): seq<seq<Shippable>> {
    seq(Flushes(b, |orders|), j requires 0 <= j < Flushes(b, |orders|) => Window(b, orders, j))
  }

  /** The orders received since the last flush. */
  function Rest(b: nat, orders: seq<Shippable>): seq<Shippable> {
    BoundaryWithin(b, |orders|, Flushes(b, |orders|));
    orders[Boundary(b, Flushes(b, |orders|))..]
  }

  // ---------- The whole output ----------

  function Batches(ws: seq<seq<Shippable>>, visits: seq<seq<string>>): seq<CombinedShipment>
    requires |visits| == |ws|
  {
    if ws == [] then []
    else Batches(Front(ws), Front(visits)) + Shipments(Last(ws), Last(visits))
  }

  ghost predicate AllVisited(ws: seq<seq<Shippable>>, visits: seq<seq<string>>) {
    |visits| == |ws| && forall j :: 0 <= j < |ws| ==> Visits(visits[j], ws[j])
  }

  /** `sent` is the grouping of the windows `ws`, each visited in some order. */
  ghost predicate Groups(ws: seq<seq<Shippable>>, sent: seq<CombinedShipment>) {
    exists visits :: AllVisited(ws, visits) && sent == Batches(ws, visits)
  }

  /** The output of a stream that ended properly: every window, and then the rest. */
  ghost predicate Complete(b: nat, orders: seq<Shippable>, sent: seq<CombinedShipment>) {
    Groups(Windows(b, orders) + [Rest(b, orders)], sent)
  }

  /** The output of a stream that has not ended: every window that was filled. */
  ghost predicate BrokenOff(b: nat, orders: seq<Shippable>, sent: seq<CombinedShipment>) {
    Groups(Windows(b, orders), sent)
  }

  // ---------- The same output, spelled out ----------

  /** The positions of the orders of a window that go to one address, in increasing order. */
  ghost predicate Selects(at: seq<nat>, w: seq<Shippable>, to: string) {
    Picks(at, w, (o: Shippable) => o.addresses[0].address == to)
  }

  ghost predicate ListsAt(list: seq<Order>, w: seq<Shippable>, at: seq<nat>)
    requires forall k :: 0 <= k < |at| ==> at[k] < |w|
  {
    |list| == |at| && forall k :: 0 <= k < |at| ==> list[k] == w[at[k]]
  }

  /** The shipment of one address: its orders, and no others, in arrival order. */
  ghost predicate IsShipment(s: CombinedShipment, w: seq<Shippable>, to: string) {
    && s.id == "cmb - " + to
    && s.status == "Processed!"
    && exists at: seq<nat> :: Selects(at, w, to) && ListsAt(s.orderList, w, at)
  }

  /** Each first address of the window once. */
  ghost predicate NamesAddresses(order: seq<string>, w: seq<Shippable>) {
    && NoDuplicates(order)
    && (forall i :: 0 <= i < |w| ==> w[i].addresses[0].address in order)
    && (forall k :: 0 <= k < |order| ==> exists i :: 0 <= i < |w| && w[i].addresses[0].address == order[k])
  }

  ghost predicate IsFlushInOrder(block: seq<CombinedShipment>, w: seq<Shippable>, order: seq<string>) {
    && NamesAddresses(order, w)
    && |block| == |order|
    && forall k :: 0 <= k < |order| ==> IsShipment(block[k], w, order[k])
  }

  ghost predicate IsFlush(block: seq<CombinedShipment>, w: seq<Shippable>) {
    exists order :: IsFlushInOrder(block, w, order)
  }

  ghost predicate FlushesOf(blocks: seq<seq<CombinedShipment>>, ws: seq<seq<Shippable>>) {
    |blocks| == |ws| && forall j :: 0 <= j < |ws| ==> IsFlush(blocks[j], ws[j])
  }

  /** The messages sent are one flush per window, one after the other. */
  ghost predicate IsGrouping(ws: seq<seq<Shippable>>, sent: seq<CombinedShipment>) {
    exists blocks :: FlushesOf(blocks, ws) && sent == Flatten(blocks)
  }

  /** All orders in a list of shipments. */
  function Contents(sent: seq<CombinedShipment>): seq<Order> {
    if sent == [] then [] else Contents(Front(sent)) + Last(sent).orderList
  }

  function AsOrders(w: seq<Shippable>): seq<Order> {
    seq(|w|, i requires 0 <= i < |w| => w[i])
  }
}

module GroupByProofs {
  import opened Common
  import opened GroupBy

  // ---------- Cadence ----------

  lemma DivModStep(n: nat, d: nat)
    requires d > 0
    ensures (n + 1) % d == 0 ==> (n + 1) / d == n / d + 1 && n % d == d - 1
    ensures (n + 1) % d != 0 ==> (n + 1) / d == n / d && (n + 1) % d == n % d + 1
  {
    var q, r := n / d, n % d;
    assert n == q * d + r;
    if r == d - 1 {
      assert n + 1 == (q + 1) * d;
      DivModUnique(n + 1, d, q + 1, 0);
    } else {
      DivModUnique(n + 1, d, q, r + 1);
    }
  }

  lemma DivModUnique(n: int, d: int, q: int, r: int)
    requires d > 0 && 0 <= r < d && n == q * d + r
    ensures n / d == q && n % d == r
  {
    QuotientUnique(d, q, r, n / d, n % d);
  }

  lemma QuotientUnique(d: int, q: int, r: int, q': int, r': int)
    requires 0 <= r < d && 0 <= r' < d && q * d + r == q' * d + r'
    ensures q == q' && r == r'
  {
    Multiple(q - q', d);
    assert (q - q') * d == r' - r;
  }

  lemma Multiple(k: int, d: int)
    requires d > 0
    ensures k >= 1 ==> k * d >= d
    ensures k <= -1 ==> k * d <= -d
  {
  }

  /** A flush follows order number k exactly when k mod (b+1) = b. */
  lemma FlushCadence(b: nat, k: nat)
    requires k > 0
    ensures Flushes(b, k) == Flushes(b, k - 1) + (if k % (b + 1) == b then 1 else 0)
  {
    DivModStep(k, b + 1);
  }

  /** The first window has b orders and every later one b+1. */
  lemma WindowSizes(b: nat, orders: seq<Shippable>, j: nat)
    requires j < |Windows(b, orders)|
    ensures |Windows(b, orders)| == (|orders| + 1) / (b + 1)
    ensures |Windows(b, orders)[j]| == if j == 0 then b else b + 1
  {
    BoundaryWithin(b, |orders|, j);
    assert (j + 1) * (b + 1) == j * (b + 1) + (b + 1);
  }

  /** An order that triggers a flush is the last one of its window. */
  lemma FlushEndsWindow(b: nat, n: nat)
    requires (n + 1) % (b + 1) == b
    ensures Boundary(b, Flushes(b, n) + 1) == n + 1
  {
    DivModStep(n + 1, b + 1);
    FlushCadence(b, n + 1);
    assert n + 2 == (n + 2) / (b + 1) * (b + 1);
  }

  lemma EarlierWindowsStay(b: nat, orders: seq<Shippable>, o: Shippable, j: nat)
    requires j < Flushes(b, |orders|)
    ensures j < Flushes(b, |orders + [o]|)
    ensures Window(b, orders + [o], j) == Window(b, orders, j)
  {
    FlushCadence(b, |orders| + 1);
    BoundaryWithin(b, |orders|, j);
  }

  /** What one more order does to the windows. */
  lemma OneMore(b: nat, orders: seq<Shippable>, o: Shippable)
    ensures (|orders| + 1) % (b + 1) == b ==>
              Windows(b, orders + [o]) == Windows(b, orders) + [Rest(b, orders) + [o]] && Rest(b, orders + [o]) == []
    ensures (|orders| + 1) % (b + 1) != b ==>
              Windows(b, orders + [o]) == Windows(b, orders) && Rest(b, orders + [o]) == Rest(b, orders) + [o]
  {
    if (|orders| + 1) % (b + 1) == b {
      OneMoreFlushes(b, orders, o);
    } else {
      OneMoreWaits(b, orders, o);
    }
  }

  /** The position within a window, as the code counts it: from 1 in the first window, from 0 afterwards. */
  function Marker(b: nat, n: nat): nat {
    (n + 1) % (b + 1)
  }

  lemma MarkerStep(b: nat, orders: seq<Shippable>, o: Shippable)
    ensures Marker(b, |orders|) == b ==>
              && Windows(b, orders + [o]) == Windows(b, orders) + [Rest(b, orders) + [o]]
              && Rest(b, orders + [o]) == []
              && Marker(b, |orders| + 1) == 0
    ensures Marker(b, |orders|) != b ==>
              && Windows(b, orders + [o]) == Windows(b, orders)
              && Rest(b, orders + [o]) == Rest(b, orders) + [o]
              && Marker(b, |orders| + 1) == Marker(b, |orders|) + 1
  {
    OneMore(b, orders, o);
    DivModStep(|orders| + 1, b + 1);
  }

  lemma MarkerStart(b: nat)
    requires b > 0
    ensures Marker(b, 0) == 1 && Windows(b, []) == [] && Rest(b, []) == []
  {
    assert 1 / (b + 1) == 0;
  }

  lemma OneMoreFlushes(b: nat, orders: seq<Shippable>, o: Shippable)
    requires (|orders| + 1) % (b + 1) == b
    ensures Windows(b, orders + [o]) == Windows(b, orders) + [Rest(b, orders) + [o]]
    ensures Rest(b, orders + [o]) == []
  {
    var longer, q := orders + [o], Flushes(b, |orders|);
    assert Flushes(b, |longer|) == q + 1 by {
      FlushCadence(b, |longer|);
    }
    FlushEndsWindow(b, |orders|);
    assert Boundary(b, q) <= |orders| by {
      BoundaryWithin(b, |orders|, q);
    }
    assert Window(b, longer, q) == Rest(b, orders) + [o];
    forall j | 0 <= j < q
      ensures Window(b, longer, j) == Window(b, orders, j)
    {
      EarlierWindowsStay(b, orders, o, j);
    }
    assert forall j :: 0 <= j < q ==> Windows(b, longer)[j] == Window(b, longer, j);
  }

  lemma OneMoreWaits(b: nat, orders: seq<Shippable>, o: Shippable)
    requires (|orders| + 1) % (b + 1) != b
    ensures Windows(b, orders + [o]) == Windows(b, orders)
    ensures Rest(b, orders + [o]) == Rest(b, orders) + [o]
  {
    var longer, q := orders + [o], Flushes(b, |orders|);
    assert Flushes(b, |longer|) == q by {
      FlushCadence(b, |longer|);
    }
    assert Boundary(b, q) <= |orders| by {
      BoundaryWithin(b, |orders|, q);
    }
    forall j | 0 <= j < q
      ensures Windows(b, longer)[j] == Windows(b, orders)[j]
    {
      EarlierWindowsStay(b, orders, o, j);
    }
  }

  lemma PartitionStep(b: nat, orders: seq<Shippable>, o: Shippable)
    requires Flatten(Windows(b, orders)) + Rest(b, orders) == orders
    ensures Flatten(Windows(b, orders + [o])) + Rest(b, orders + [o]) == orders + [o]
  {
    var ws, rest := Windows(b, orders), Rest(b, orders);
    OneMore(b, orders, o);
    FlattenSnoc(ws, rest + [o]);
    assert Flatten(ws) + (rest + [o]) == Flatten(ws) + rest + [o];
  }

  /** The windows and the rest together are the received orders, in order and without overlap. */
  lemma {:induction false} WindowsPartition(b: nat, orders: seq<Shippable>)
    requires b > 0
    ensures Flatten(Windows(b, orders)) + Rest(b, orders) == orders
  {
    if orders == [] {
      MarkerStart(b);
    } else {
      WindowsPartition(b, Front(orders));
      PartitionStep(b, Front(orders), Last(orders));
      assert orders == Front(orders) + [Last(orders)];
    }
  }

  // ---------- One flush ----------

  lemma {:induction false} BoundMembers(w: seq<Shippable>, to: string, o: Order)
    ensures o in Bound(w, to) <==> o.addresses != [] && o in w && Destination(o) == to
  {
    if w != [] {
      assert w == Front(w) + [Last(w)];
      BoundMembers(Front(w), to, o);
    }
  }

  /** A flush sends exactly one shipment per distinct destination, and none of them is empty. */
  lemma OneShipmentPerDestination(w: seq<Shippable>, order: seq<string>, i: nat, j: nat)
    requires Visits(order, w)
    ensures |Shipments(w, order)| == |Destinations(w)|
    ensures i < |order| ==> Shipments(w, order)[i].orderList != []
    ensures i < j < |order| ==> Shipments(w, order)[i].id != Shipments(w, order)[j].id
    ensures forall a :: a in Destinations(w) ==>
              exists k :: 0 <= k < |order| && Shipments(w, order)[k] == Shipment(w, a)
  {
    var visited := set a | a in order;
    assert visited == Destinations(w);
    DistinctCount(order);
    if i < |order| {
      assert order[i] in Destinations(w);
      var o: Shippable :| o in w && Destination(o) == order[i];
      BoundMembers(w, order[i], o);
    }
    if i < j < |order| {
      var m, m' := Shipments(w, order)[i].id, Shipments(w, order)[j].id;
      assert m[6..] == order[i] && m'[6..] == order[j];
    }
    forall a | a in Destinations(w)
      ensures exists k :: 0 <= k < |order| && Shipments(w, order)[k] == Shipment(w, a)
    {
      var k :| 0 <= k < |order| && order[k] == a;
      assert Shipments(w, order)[k] == Shipment(w, a);
    }
  }

  // ---------- Arrival order ----------

  lemma ListsSnoc(list: seq<Order>, w: seq<Shippable>, at: seq<nat>, o: Shippable)
    requires forall k :: 0 <= k < |at| ==> at[k] < |w|
    requires ListsAt(list, w, at)
    ensures ListsAt(list, w + [o], at) && ListsAt(list + [o], w + [o], at + [|w|])
  {
  }

  lemma SelectsSnoc(at: seq<nat>, w: seq<Shippable>, o: Shippable, to: string)
    requires Selects(at, w, to)
    ensures Selects(if o.addresses[0].address == to then at + [|w|] else at, w + [o], to)
  {
    PicksSnoc(at, w, o, (x: Shippable) => x.addresses[0].address == to);
  }

  /** The list of a destination is the window at exactly its positions, in arrival order. */
  lemma {:induction false} BoundInArrivalOrder(w: seq<Shippable>, to: string) returns (at: seq<nat>)
    ensures Selects(at, w, to) && ListsAt(Bound(w, to), w, at)
  {
    if w == [] {
      at := [];
      assert Elements(at) == Where(w, (o: Shippable) => o.addresses[0].address == to);
    } else {
      var earlier := BoundInArrivalOrder(Front(w), to);
      at := BoundOneMore(w, to, earlier);
    }
  }

  lemma BoundOneMore(w: seq<Shippable>, to: string, earlier: seq<nat>) returns (at: seq<nat>)
    requires w != [] && Selects(earlier, Front(w), to) && ListsAt(Bound(Front(w), to), Front(w), earlier)
    ensures Selects(at, w, to) && ListsAt(Bound(w, to), w, at)
  {
    var before, o := Front(w), Last(w);
    assert w == before + [o];
    at := if o.addresses[0].address == to then earlier + [|before|] else earlier;
    assert Selects(at, w, to) by {
      SelectsSnoc(earlier, before, o, to);
    }
    ListsSnoc(Bound(before, to), before, earlier, o);
  }

  lemma ShipmentMeans(w: seq<Shippable>, to: string)
    ensures IsShipment(Shipment(w, to), w, to)
  {
    var at := BoundInArrivalOrder(w, to);
    assert Selects(at, w, to) && ListsAt(Shipment(w, to).orderList, w, at);
  }

  lemma VisitsNamesAddresses(w: seq<Shippable>, order: seq<string>)
    requires Visits(order, w)
    ensures NamesAddresses(order, w)
  {
    forall i | 0 <= i < |w|
      ensures w[i].addresses[0].address in order
    {
      assert Destination(w[i]) in Destinations(w);
    }
    forall k | 0 <= k < |order|
      ensures exists i :: 0 <= i < |w| && w[i].addresses[0].address == order[k]
    {
      assert order[k] in Destinations(w);
      var o: Shippable :| o in w && Destination(o) == order[k];
      var i :| 0 <= i < |w| && w[i] == o;
      assert w[i].addresses[0].address == order[k];
    }
  }

  /** A flush is what the window spells out: one shipment per first address, each in arrival order. */
  lemma FlushMeans(w: seq<Shippable>, order: seq<string>)
    requires Visits(order, w)
    ensures IsFlush(Shipments(w, order), w)
  {
    VisitsNamesAddresses(w, order);
    forall k | 0 <= k < |order|
      ensures IsShipment(Shipments(w, order)[k], w, order[k])
    {
      ShipmentMeans(w, order[k]);
    }
    assert IsFlushInOrder(Shipments(w, order), w, order);
  }

  lemma {:induction false} BatchesMean(ws: seq<seq<Shippable>>, visits: seq<seq<string>>)
    returns (blocks: seq<seq<CombinedShipment>>)
    requires AllVisited(ws, visits)
    ensures FlushesOf(blocks, ws) && Batches(ws, visits) == Flatten(blocks)
  {
    if ws == [] {
      blocks := [];
    } else {
      var block := Shipments(Last(ws), Last(visits));
      var earlier := BatchesMean(Front(ws), Front(visits));
      FlushMeans(Last(ws), Last(visits));
      FlattenSnoc(earlier, block);
      blocks := earlier + [block];
      assert forall j :: 0 <= j < |ws| - 1 ==> ws[j] == Front(ws)[j] && blocks[j] == earlier[j];
    }
  }

  /** Every grouped output, read without the grouping functions. */
  lemma GroupsMeans(ws: seq<seq<Shippable>>, sent: seq<CombinedShipment>)
    requires Groups(ws, sent)
    ensures IsGrouping(ws, sent)
  {
    var visits :| AllVisited(ws, visits) && sent == Batches(ws, visits);
    var blocks := BatchesMean(ws, visits);
    assert FlushesOf(blocks, ws) && sent == Flatten(blocks);
  }

  lemma {:induction false} DistinctCount<T>(s: seq<T>)
    requires NoDuplicates(s)
    ensures |set x | x in s| == |s|
  {
    if s != [] {
      DistinctCount(Front(s));
      assert (set x | x in s) == (set x | x in Front(s)) + {Last(s)};
    }
  }

  // ---------- Conservation ----------

  /** The orders of a window whose destination is in the list. */
  function BoundAny(w: seq<Shippable>, to: seq<string>): seq<Order> {
    if w == [] then []
    else BoundAny(Front(w), to) + if Destination(Last(w)) in to then [Last(w)] else []
  }

  lemma {:induction false} BoundAnySnoc(w: seq<Shippable>, to: seq<string>, a: string)
    requires a !in to
    ensures multiset(BoundAny(w, to + [a])) == multiset(BoundAny(w, to)) + multiset(Bound(w, a))
  {
    if w != [] {
      BoundAnySnoc(Front(w), to, a);
    }
  }

  lemma {:induction false} BoundAnyAll(w: seq<Shippable>, to: seq<string>)
    requires forall o :: o in w ==> Destination(o) in to
    ensures BoundAny(w, to) == AsOrders(w)
  {
    if w != [] {
      assert w == Front(w) + [Last(w)];
      BoundAnyAll(Front(w), to);
      assert AsOrders(w) == AsOrders(Front(w)) + [Last(w)];
    }
  }

  lemma BoundAnyNone(w: seq<Shippable>)
    ensures BoundAny(w, []) == []
  {
  }

  lemma {:induction false} ShipmentContents(w: seq<Shippable>, order: seq<string>)
    requires NoDuplicates(order)
    ensures multiset(Contents(Shipments(w, order))) == multiset(BoundAny(w, order))
  {
    if order == [] {
      BoundAnyNone(w);
    } else {
      ShipmentContents(w, Front(order));
      assert order == Front(order) + [Last(order)];
      BoundAnySnoc(w, Front(order), Last(order));
      assert Front(Shipments(w, order)) == Shipments(w, Front(order));
    }
  }

  lemma FlushConserves(w: seq<Shippable>, order: seq<string>)
    requires Visits(order, w)
    ensures multiset(Contents(Shipments(w, order))) == multiset(AsOrders(w))
  {
    ShipmentContents(w, order);
    forall o: Shippable | o in w
      ensures Destination(o) in order
    {
      assert Destination(o) in Destinations(w);
    }
    BoundAnyAll(w, order);
  }

  lemma {:induction false} ContentsConcat(a: seq<CombinedShipment>, b: seq<CombinedShipment>)
    ensures Contents(a + b) == Contents(a) + Contents(b)
  {
    if b == [] {
      assert a + b == a;
    } else {
      ContentsConcat(a, Front(b));
      assert Front(a + b) == a + Front(b);
    }
  }

  lemma {:induction false} BatchesConserve(ws: seq<seq<Shippable>>, visits: seq<seq<string>>)
    requires AllVisited(ws, visits)
    ensures multiset(Contents(Batches(ws, visits))) == multiset(AsOrders(Flatten(ws)))
  {
    if ws != [] {
      BatchesConserve(Front(ws), Front(visits));
      FlushConserves(Last(ws), Last(visits));
      ContentsConcat(Batches(Front(ws), Front(visits)), Shipments(Last(ws), Last(visits)));
      AsOrdersConcat(Flatten(Front(ws)), Last(ws));
    }
  }

  /** Conservation: after a complete run every received order was sent, repeats included. */
  lemma CompleteRunConserves(b: nat, orders: seq<Shippable>, sent: seq<CombinedShipment>)
    requires b > 0 && Complete(b, orders, sent)
    ensures multiset(Contents(sent)) == multiset(AsOrders(orders))
  {
    var ws := Windows(b, orders) + [Rest(b, orders)];
    var visits :| AllVisited(ws, visits) && sent == Batches(ws, visits);
    BatchesConserve(ws, visits);
    FlattenSnoc(Windows(b, orders), Rest(b, orders));
    WindowsPartition(b, orders);
  }

  /** When the stream breaks off, what is missing is exactly the window that was never flushed. */
  lemma BrokenRunLosesTheRest(b: nat, orders: seq<Shippable>, sent: seq<CombinedShipment>)
    requires b > 0 && BrokenOff(b, orders, sent)
    ensures multiset(Contents(sent)) + multiset(AsOrders(Rest(b, orders))) == multiset(AsOrders(orders))
  {
    var ws := Windows(b, orders);
    var visits :| AllVisited(ws, visits) && sent == Batches(ws, visits);
    BatchesConserve(ws, visits);
    WindowsPartition(b, orders);
    AsOrdersConcat(Flatten(ws), Rest(b, orders));
  }

  lemma AsOrdersConcat(a: seq<Shippable>, b: seq<Shippable>)
    ensures AsOrders(a + b) == AsOrders(a) + AsOrders(b)
  {
  }

  /** When a send fails, everything that was sent was received, and nothing was sent twice. */
  lemma FailedSendDuplicatesNothing(b: nat, orders: seq<Shippable>, full: seq<CombinedShipment>, sent: seq<CombinedShipment>)
    requires b > 0 && sent <= full
    requires Complete(b, orders, full) || BrokenOff(b, orders, full)
    ensures multiset(Contents(sent)) <= multiset(AsOrders(orders))
  {
    if Complete(b, orders, full) {
      CompleteRunConserves(b, orders, full);
    } else {
      BrokenRunLosesTheRest(b, orders, full);
    }
    assert full == sent + full[|sent|..];
    ContentsConcat(sent, full[|sent|..]);
  }

  // ---------- Building the output batch by batch ----------

  lemma GroupsSnoc(ws: seq<seq<Shippable>>, sent: seq<CombinedShipment>, w: seq<Shippable>, order: seq<string>)
    requires Groups(ws, sent) && Visits(order, w)
    ensures Groups(ws + [w], sent + Shipments(w, order))
  {
    var visits :| AllVisited(ws, visits) && sent == Batches(ws, visits);
    var more := visits + [order];
    assert Front(more) == visits && Front(ws + [w]) == ws;
    assert AllVisited(ws + [w], more);
  }

  lemma GroupsNothing()
    ensures Groups([], [])
  {
    assert AllVisited([], []);
  }
}
