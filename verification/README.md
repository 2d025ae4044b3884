# Event-driven services of k8s-learning, modelled and proved in Dafny

The repository's code with state that lives longer than one call is a gRPC order service and a set of
Proxy-Wasm filters. Each is modelled twice: as a transition system whose runs are all interleavings of
its events, and as imperative code (classes, loops, in-place updates) proved to take exactly those steps.
The results hold for every run, every number of VMs or streams, and every order of events.

| file | component |
|---|---|
| `SharedData.dfy`, `LittleEndian.dfy` | counter shared by many VMs: get, add, compare-and-swap, retry |
| `GroupBy.dfy` | what `ProcessOrders` promises: windows, grouping by destination, conservation |
| `OrderService.dfy` | the order service: `AddOrder`, `GetOrder`, `SearchOrders`, `UpdateOrders`, `ProcessOrders` |
| `SharedQueue.dfy`, `Text.dfy` | queue shared by senders and a receiver, and the message text |
| `ProxyHost.dfy` | the host as filters see it: streams, callouts, effective context |
| `MultipleDispatches.dfy` | fan-out/fan-in barrier over callouts |
| `HttpBody.dfy` | body buffering and rewriting, both directions, and the echo variant |
| `Postpone.dfy` | requests postponed until a tick |
| `HttpAuthRandom.dfy` | FNV-1a gate over concurrent streams |
| `Metrics.dfy` | per-value counter cache over host metrics, with any number of VMs |

## How the environment is modelled

- Host calls are atomic. Where other VMs or streams can act between two host calls of a handler, the
  handler takes a schedule of their steps, and its contract holds for every schedule.
- A compare-and-swap token is a number. A write may get any token except 0 and those that other VMs still
  hold, so tokens may be reused once nobody holds them. `SharedData.NoticedIffFresh` shows that this is exactly
  what the protocol needs, and `SharedData.ReusedTokenLosesUpdate` what happens otherwise. Nothing but the
  modelled code writes the shared key.
- A host event loop (`HandleEvents`, `HandleRequests`) feeds whole runs to the code of each filter, with one
  object per stream or VM.
- Go map iteration is an arbitrary choice of the next key. A send fails after a number of successes that
  is a parameter. The order map may change between two `Recv` calls; one iteration is atomic.
- A looked-up order that is missing, or has no address, makes the Go code panic. That is an outcome of
  the model, not a precondition.
- Host reads of a body yield at most what is buffered. Body sizes are given per chunk.
- FNV-1a follows section 2 of draft-eastlake-fnv. Content-Length is the field of section 8.6 of RFC 9110.

## Findings

- `ProcessOrders` flushes its first batch after 3 orders and every later one after 4, because the marker
  starts at 1 but is reset to 0 (`GroupByProofs.FlushCadence`, `GroupByProofs.WindowSizes`).
- When `ProcessOrders` receives an error other than end of stream, the orders of the open window are
  looked up and never sent (`GroupByProofs.BrokenRunLosesTheRest` says exactly which).
- The reply of `UpdateOrders` can be read back exactly when no id contains a comma followed by a blank.
- The queue message of a header can be read back exactly when its name has no double quote; values
  need no escaping (`HeaderMessage.MessageRoundTrip`, with a collision in `HeaderMessage.QuotedNamesCollide`).
- The hash of the gate only matters through the number of odd bytes of the callout body
  (`Fnv.HashParity`): access is granted when that number is odd, and an empty body is refused.
- A failed dequeue leaves its item in the queue without a notification (`SharedQueue.Drained`).
- The gate lets a request through when the callout body cannot be read or the reply cannot be sent, and holds
  it for ever when the callout headers cannot be read (`HttpAuthRandom.DeniedIff`, `HttpAuthRandom.GateOutcome`).

- The text istio/envoy/wasm-go/shared_data/README.md shows a counter that starts at 1; the code starts it at
  10000000, and the model follows the code.

## Model

| member | source | states |
|---|---|---|
| `SharedData.RunsAreCoherent` | istio/envoy/wasm-go/shared_data/main.go:50-98 | in every run a VM that holds the current token holds the current value, all values have 8 bytes, and the key exists iff some VM started |
| `SharedData.NoLostUpdate` | istio/envoy/wasm-go/shared_data/main.go:50-98 | in every interleaving of any number of VMs the decoded value is 10000000 plus the successes since the latest start write, mod 2^64 |
| `SharedData.IncrementsAreAtomic` | istio/envoy/wasm-go/shared_data/main.go:83-98 | the k-th success after the latest start write returns 10000000 + k mod 2^64 |
| `SharedData.ReturnsAreDistinct` | istio/envoy/wasm-go/shared_data/main.go:83-98 | two successes return the same value iff they are a multiple of 2^64 apart |
| `SharedData.MismatchIffWritten` | istio/envoy/wasm-go/shared_data/main.go:83-98 | a conditional set fails iff somebody wrote between it and its get |
| `SharedData.MismatchesArePaidFor` | istio/envoy/wasm-go/shared_data/main.go:71-98 | from any moment between attempts, the mismatches of a VM are at most the writes of other VMs |
| `SharedData.NoticedIffFresh` | istio/envoy/wasm-go/shared_data/main.go:93-96 | a VM notices another VM's write iff the token of the write is not the one it holds |
| `SharedData.ReusedTokenLosesUpdate` | istio/envoy/wasm-go/shared_data/main.go:83-98 | with a reused token two VMs that read the same value both succeed and the value grows by one only |
| `SharedData.Store.OnVMStart` | istio/envoy/wasm-go/shared_data/main.go:50-57 | the unconditional write leaves 10000000 stored and restarts the count |
| `SharedData.IncrementData` | istio/envoy/wasm-go/shared_data/main.go:83-98 | one attempt, against every interference between its get and set: result, returned value, and that it fails only under interference |
| `SharedData.OnHttpRequestHeaders` | istio/envoy/wasm-go/shared_data/main.go:70-81 | the retry loop ends against every finite schedule, counts the request exactly once unless the key never existed, and retries at most once per foreign write during the call |
| `LittleEndian.DecodeEncode` | istio/envoy/wasm-go/shared_data/main.go:90-92 | reading back a written 64-bit value |
| `LittleEndian.EncodeDecode` | istio/envoy/wasm-go/shared_data/main.go:90-92 | every byte sequence is the encoding of the value it reads as |
| `LittleEndian.DecodeConcat` | istio/envoy/wasm-go/shared_data/main.go:90-92 | one byte reads as itself and the low byte comes first: byte i has the weight 256^i |
| `LittleEndian.PutUint64` | istio/envoy/wasm-go/shared_data/main.go:51-52 | the buffer is filled in place with the encoding and is otherwise unchanged |
| `GroupByProofs.FlushCadence` | dev/grpc/basic/server/order.go:122-133 | a flush follows order k iff k mod (b+1) = b |
| `GroupByProofs.WindowSizes` | dev/grpc/basic/server/order.go:90-133 | there are (n+1) div (b+1) windows; the first has b orders and every later one b+1 |
| `GroupByProofs.MarkerStep` | dev/grpc/basic/server/order.go:122-133 | the batch marker of the code, step by step, is the position in the closed-form windows |
| `GroupByProofs.WindowsPartition` | dev/grpc/basic/server/order.go:92-134 | windows and rest are the received orders, in order, without gap or overlap |
| `GroupByProofs.OneShipmentPerDestination` | dev/grpc/basic/server/order.go:107-131 | a flush sends exactly one non-empty shipment per distinct first address, with distinct ids |
| `GroupByProofs.BoundInArrivalOrder` | dev/grpc/basic/server/order.go:108-118 | the order list of an address is the window at exactly the increasing positions whose first address it is |
| `GroupByProofs.ShipmentMeans` | dev/grpc/basic/server/order.go:110-118 | a shipment has the id "cmb - " + address, the status "Processed!" and its orders in arrival order |
| `GroupByProofs.GroupsMeans` | dev/grpc/basic/server/order.go:107-131 | every output is one flush per window, each naming every first address once with its shipment spelled out |
| `GroupByProofs.CompleteRunConserves` | dev/grpc/basic/server/order.go:88-135 | after end of stream the multiset of sent orders is the multiset of looked-up orders |
| `GroupByProofs.BrokenRunLosesTheRest` | dev/grpc/basic/server/order.go:102-105 | when the stream breaks off, what is missing is exactly the unflushed window |
| `GroupByProofs.FailedSendDuplicatesNothing` | dev/grpc/basic/server/order.go:95-99 | when a send fails, what was sent is a sub-multiset of what was received |
| `OrderService.OrderManagement.Flush` | dev/grpc/basic/server/order.go:123-128 | for every map order, the shipments sent are one per first address with its orders in arrival order, or a proper prefix of that if a send failed |
| `OrderService.OrderManagement.Combine` | dev/grpc/basic/server/order.go:107-120 | adding an order keeps every shipment of the map the spelled-out one of the window: id, status, orders in arrival order |
| `OrderService.OrderManagement.ProcessOrders` | dev/grpc/basic/server/order.go:88-135 | with batch constant 3, for every id stream, interference, map order and failing send: the messages are the spelled-out flushes of the windows, complete, broken off or cut short as the outcome says, and conserve the looked-up orders |
| `OrderService.OrderManagement.ProcessInBatches` | dev/grpc/basic/server/order.go:88-135 | the loop refines the windowed group-by for any positive batch constant, and writes no order |
| `OrderService.LookupAt` | dev/grpc/basic/server/order.go:107-118 | each looked-up order is the one stored under its id when the id arrived, and lookups stop at the first id without an address |
| `OrderStore.LastWriteWins` | dev/grpc/basic/server/order.go:30-46 | after any writes an id holds the last order sent for it, and other ids what they held |
| `OrderService.OrderManagement.AddOrder` | dev/grpc/basic/server/order.go:30-35 | stores one order under its id and names the id in the reply |
| `OrderService.OrderManagement.GetOrder` | dev/grpc/basic/server/order.go:38-46 | finds an order iff the id is stored |
| `OrderService.OrderManagement.UpdateOrders` | dev/grpc/basic/server/order.go:69-85 | refines repeated AddOrder among the writes of other calls, and the reply is the literal prefix followed by the received ids in order |
| `OrderStore.OwnWritesWin` | dev/grpc/basic/server/order.go:69-85 | for an id that no other call writes, the last write of all is the stream's last order for it |
| `OrderStore.ListingConcat` | dev/grpc/basic/server/order.go:83 | the listing of a concatenation is the concatenation of the listings |
| `OrderStore.ListingOne` | dev/grpc/basic/server/order.go:83 | one id is listed as the id, a comma and a blank |
| `OrderStore.ReplyRoundTrip` | dev/grpc/basic/server/order.go:71-83 | the listing parses back to the exact ids iff none contains a comma and a blank |
| `OrderService.OrderManagement.SearchOrders` | dev/grpc/basic/server/order.go:49-64 | for every map order, each stored order is sent once per item position that the query stands in, and no more if a send fails |
| `OrderStore.MatchesMeans` | dev/grpc/basic/server/order.go:53-54 | the counting loop counts exactly the positions of items of the form before + query + after |
| `HeaderMessage.MessageRoundTrip` | istio/envoy/wasm-go/shared_queue/sender/main.go:109-116 | a message parses back to its header iff the name has no double quote |
| `HeaderMessage.FormatText` | istio/envoy/wasm-go/shared_queue/sender/main.go:110 | the text of a message, written out |
| `HeaderMessage.FormatIsInjective` | istio/envoy/wasm-go/shared_queue/sender/main.go:126-133 | headers with proper names never share a message |
| `HeaderMessage.QuotedNamesCollide` | istio/envoy/wasm-go/shared_queue/sender/main.go:109-116 | two different headers, one with a quote in its name, share a message |
| `SharedQueue.Fifo` | istio/envoy/wasm-go/shared_queue/sender/main.go:104-135 | for every interleaving, dequeued history followed by queue contents is enqueued history, and each stream's messages keep their order |
| `SharedQueue.ReceiverSeesHeaders` | istio/envoy/wasm-go/shared_queue/receiver/main.go:67-77 | parsing what is taken or left of one stream yields the headers it managed to send, in order |
| `SharedQueue.MessagesSpelledOut` | istio/envoy/wasm-go/shared_queue/sender/main.go:104-135 | in every run the k-th message of a stream is the written-out text of the header it stands for |
| `SharedQueue.NothingLost` | istio/envoy/wasm-go/shared_queue/sender/main.go:109-116 | if every enqueue succeeds, a stream's messages are all its headers |
| `SharedQueue.Balance` | istio/envoy/wasm-go/shared_queue/receiver/main.go:67-77 | items and spurious notifications balance pending notifications, errors and empty dequeues |
| `SharedQueue.Drained` | istio/envoy/wasm-go/shared_queue/receiver/main.go:67-77 | once all notifications are handled the queue is empty if no dequeue failed; without spurious notifications, iff none failed |
| `SharedQueue.SenderHttpContext.OnHttpRequestHeaders` | istio/envoy/wasm-go/shared_queue/sender/main.go:104-118 | against every schedule of the other users, the request queue gets the accepted messages in header order, and the response queue is untouched |
| `SharedQueue.SenderHttpContext.OnHttpResponseHeaders` | istio/envoy/wasm-go/shared_queue/sender/main.go:121-135 | the same for the response queue |
| `SharedQueue.OnQueueReady` | istio/envoy/wasm-go/shared_queue/receiver/main.go:67-77 | takes at most one item, the oldest, and nothing on empty or error |
| `MultipleDispatches.FanIn` | istio/envoy/wasm-go/multiple_dispatches/main.go:65-96 | for any streams, callback order and positive count: counter = unanswered callouts; held while there is one; resumed exactly once when there is none, with exactly one added header total-dispatched whose decimal value is the count |
| `MultipleDispatches.ResumedAtTheLastCallback` | istio/envoy/wasm-go/multiple_dispatches/main.go:83-96 | a callback resumes its stream iff it answers the last outstanding callout, and touches no other stream |
| `MultipleDispatches.EveryCalloutCanBeAnswered` | istio/envoy/wasm-go/multiple_dispatches/main.go:65-96 | no outstanding callout is ever without its context |
| `MultipleDispatches.NothingDispatchedNothingResumed` | istio/envoy/wasm-go/multiple_dispatches/main.go:65-80 | with a dispatch count of zero the stream stays paused |
| `MultipleDispatches.ItoaRoundTrip` | istio/envoy/wasm-go/multiple_dispatches/main.go:89 | the number has digits only, no leading zero, and reads back |
| `MultipleDispatches.TotalReports` | istio/envoy/wasm-go/multiple_dispatches/main.go:89 | the added header is named total-dispatched and its decimal value is the dispatch count |
| `MultipleDispatches.HttpContext.OnHttpResponseHeaders` | istio/envoy/wasm-go/multiple_dispatches/main.go:65-80 | ten callouts are dispatched and counted; it panics iff a dispatch fails |
| `MultipleDispatches.HttpContext.DispatchCalls` | istio/envoy/wasm-go/multiple_dispatches/main.go:68-79 | the loop adds exactly n callouts and counts them, for any n |
| `MultipleDispatches.HttpContext.DispatchCallback` | istio/envoy/wasm-go/multiple_dispatches/main.go:83-96 | takes the step of the barrier; the last answer adds the header that reports ten |
| `MultipleDispatches.HttpContext.AnswerCall` | istio/envoy/wasm-go/multiple_dispatches/main.go:83-96 | takes the step of the barrier for one answered callout, for any count |
| `MultipleDispatches.HandleEvents` | istio/envoy/wasm-go/multiple_dispatches/main.go:65-96 | every run of the code, one context object per stream, ends in the state and counters of the run |
| `HttpBody.WholeStream` | istio/envoy/wasm-go/http_body/main.go:79-189 | in every run both directions are a function of what arrived, not of how it was cut or interleaved |
| `HttpBody.ChunkingInvariance` | istio/envoy/wasm-go/http_body/main.go:110-141 | requests with the same headers and body release the same body, whatever the cutting: the edit asked for, applied to the whole, or the body itself |
| `HttpBody.ResponseChunkingInvariance` | istio/envoy/wasm-go/http_body/main.go:158-189 | the same for responses |
| `HttpBody.RequestIsEdited` | istio/envoy/wasm-go/http_body/main.go:97-141 | append: body then "[this is appended body]"; prepend: "[this is prepended body]" then body; any other or missing value: "[this is replaced body]" |
| `HttpBody.ResponseIsEdited` | istio/envoy/wasm-go/http_body/main.go:158-189 | the same for the response when buffer-replace-at is response |
| `HttpBody.RequestBodyInOrder` | istio/envoy/wasm-go/http_body/main.go:115-121 | the whole body is the concatenation of exactly the request chunks in order |
| `HttpBody.ResponseBodyInOrder` | istio/envoy/wasm-go/http_body/main.go:163-169 | the whole body is the concatenation of exactly the response chunks in order |
| `HttpBody.LookupFindsFirst` | istio/envoy/wasm-go/http_body/main.go:80-98 | a header lookup yields the first header of the name, or none iff there is none |
| `HttpBody.HeadersAgreeWithBody` | istio/envoy/wasm-go/http_body/main.go:79-189 | at most the chosen direction is rewritten, nothing of it leaves before its end, and a rewritten body has no content-length |
| `HttpBody.RefusedIffNoContentLength` | istio/envoy/wasm-go/http_body/main.go:85-95 | answered 400 "content must be provided" iff there is no content-length, and then nothing is forwarded |
| `HttpBody.RemoveLookup` | istio/envoy/wasm-go/http_body/main.go:93-98 | removing a header hides that name and no other |
| `HttpBody.SetBodyContext.OnHttpRequestHeaders` | istio/envoy/wasm-go/http_body/main.go:79-107 | sets the direction and operation, removes content-length or replies 400 |
| `HttpBody.SetBodyContext.OnHttpRequestBody` | istio/envoy/wasm-go/http_body/main.go:110-141 | passes, holds, or edits the whole buffered request body |
| `HttpBody.SetBodyContext.OnHttpResponseHeaders` | istio/envoy/wasm-go/http_body/main.go:144-155 | removes content-length iff the response is the rewritten direction |
| `HttpBody.SetBodyContext.OnHttpResponseBody` | istio/envoy/wasm-go/http_body/main.go:158-189 | passes, holds, or edits the whole buffered response body |
| `HttpBody.FilteredStream.OnRequest` | istio/envoy/wasm-go/http_body/main.go:79-141 | the handlers under the host take exactly the request steps of the runs |
| `HttpBody.FilteredStream.OnResponse` | istio/envoy/wasm-go/http_body/main.go:144-189 | the handlers under the host take exactly the response steps of the runs |
| `HttpBody.HandleEvents` | istio/envoy/wasm-go/http_body/main.go:79-189 | every run of the code leaves both directions as promised from what arrived |
| `HttpBody.EchoStream` | istio/envoy/wasm-go/http_body/main.go:199-212 | for every cutting into chunks nothing is forwarded and the reply is 200 with the concatenation of the chunks |
| `Postpone.PausedIffQueued` | istio/envoy/wasm-go/postpone_requests/main.go:60-91 | over every run the paused streams are exactly the queued ones; resumed streams followed by the queue are the arrivals in order |
| `Postpone.ArrivalsInOrder` | istio/envoy/wasm-go/postpone_requests/main.go:87-91 | the arrivals are the streams of exactly the request events, in order |
| `Postpone.TickDrains` | istio/envoy/wasm-go/postpone_requests/main.go:60-68 | after a tick nothing is paused and every arrival was resumed exactly once, in order |
| `Postpone.PluginContext.OnTick` | istio/envoy/wasm-go/postpone_requests/main.go:60-68 | the loop terminates and resumes each queued stream under its own context |
| `Postpone.PluginContext.OnHttpRequestHeaders` | istio/envoy/wasm-go/postpone_requests/main.go:87-91 | queues the stream last and leaves it paused |
| `Postpone.HandleEvents` | istio/envoy/wasm-go/postpone_requests/main.go:60-91 | every run of the code keeps arrival order and pauses exactly the queued streams |
| `Fnv.HashParity` | istio/envoy/wasm-go/http_auth_random/main.go:98-109 | for every body the 32-bit FNV-1a hash is even iff the number of odd bytes is odd |
| `Fnv.KnownAnswers` | istio/envoy/wasm-go/http_auth_random/main.go:98-105 | the hash has the published values for the empty text, "a" and "foobar" |
| `Fnv.Sum32` | istio/envoy/wasm-go/http_auth_random/main.go:98-105 | the in-place hash loop computes the hash of the whole body |
| `HttpAuthRandom.GateOutcome` | istio/envoy/wasm-go/http_auth_random/main.go:60-119 | in every run each stream is as its own history says: held with one callout until its callback, then resumed or answered, or held if headers were unreadable |
| `HttpAuthRandom.DeniedIff` | istio/envoy/wasm-go/http_auth_random/main.go:80-119 | at most one of resumed and answered; answered iff the body was readable, its hash odd and the reply accepted, and then with 403, powered-by and "access forbidden"; held exactly while waiting, after unreadable headers, or once answered |
| `HttpAuthRandom.OnHttpRequestHeaders` | istio/envoy/wasm-go/http_auth_random/main.go:60-78 | pauses iff the callout was dispatched |
| `HttpAuthRandom.HttpCallResponseCallback` | istio/envoy/wasm-go/http_auth_random/main.go:80-119 | deciding by the hash takes the step that decides by counting odd bytes, and sends the written-out 403 reply exactly for an odd hash |
| `HttpAuthRandom.HandleEvents` | istio/envoy/wasm-go/http_auth_random/main.go:60-119 | every run of the code leaves every stream as its history says |
| `Metrics.MetricCountsOccurrences` | istio/envoy/wasm-go/metrics/main.go:61-79 | for every trace over any VMs, the metric with the written-out name of a value exists iff some request carried the value, and equals the number of such requests |
| `Metrics.CacheDefinesOnce` | istio/envoy/wasm-go/metrics/main.go:61-79 | each VM caches exactly the values it saw and defined each of their metrics once |
| `Metrics.NameIsInjective` | istio/envoy/wasm-go/metrics/main.go:72 | different values never share a metric name |
| `Metrics.Vm.OnHttpRequestHeaders` | istio/envoy/wasm-go/metrics/main.go:64-79 | counts the header value through the cache, and does nothing without the header |
| `Metrics.HandleRequests` | istio/envoy/wasm-go/metrics/main.go:61-79 | every trace handled by the code of its VMs ends in the host metrics and caches of the run |

## Left out

- `SharedData`: other plugins that write the same key, and how the host picks tokens (32 bits in the original).
- `GroupBy`: the order's timestamp; the price is a real number that is only carried along.
- `OrderService.OrderManagement.SearchOrders`: map changes while the loop runs; the search is one atomic step with respect to the map.
- `SharedQueue`: the TCP path (FNV-128a and hex of a frame), and plugin configuration and queue resolution.
- `HttpBody`: failures of header removal and of local replies, which panic in the code.
- `ProxyHost`: streams that are reset by the client while they are paused, tick periods and callout timeouts.
- `Metrics`: the 64-bit wrap-around of a host counter.
- Generated gRPC stubs, the gRPC client and the server's main function: transport only.
- The command-line tools under dev/cobra: a thin layer over libraries.
- The other Wasm filters (json_validation, http_headers, http_routing, network, properties and smaller ones): one-branch handlers or repetitions of the buffering above.
- Log texts, except the logged body of `HttpBody` and the logged value of `SharedData`.
- Helm charts, YAML, Python and TLS services, and notes: configuration, I/O or third-party material.
