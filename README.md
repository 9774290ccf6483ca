# Metrics counter store of jwt-pizza-service, in Dafny

The service keeps one `Metrics` object (src/metrics.js). The request handlers
call its mutators to count HTTP requests by method. The same calls track:

- the active-user gauge
- login successes and failures
- pizzas sold and failed orders
- revenue
- two latency sums

A periodic reporting tick turns the counters into fifteen line-protocol
measurements (`measurement,tag=value,... field=value`), in a fixed order, and
pushes each one to the metrics endpoint. It then clears four of the
counters.

The project models that object and its tick, and proves what each part does:

- `wrappers.dfy`: the `Option` type.
- `decimal.dfy`: how a counter is written as text in a line (decimal digits,
  with a leading `-` when negative). It also defines the parser that reads it back.
- `line_protocol.dfy`: the measurement line as a value (`Point`), the encoding
  the template strings perform (`Encode`), and a decoder (`Decode`) that is
  its partner. `HttpLine` is the source's one builder function,
  `sendHttpMetricToGrafana` (two tags). `SourceLine` stands for the shared
  template of the ten inline template literals that write every other line
  (one `source` tag).
- `counters.dfy`: the thirteen counters as a value (`Snapshot`) and each
  mutator as a pure transition. Any sequence of calls is a trace (`Run`), and
  the lemmas speak about traces.
- `report.dfy`: the fifteen lines of one tick.
  - The groups `HttpLines`, `SystemLines`, `ActiveUsersLine`,
    `AuthenticationLines`, `PizzaLines` and `LatencyLines` correspond to
    the tick's five HTTP sends, to its direct send of the active-user line
    (src/metrics.js:46) and to the four `send…ToGrafana` helpers.
  - `TickLines` puts them in the order the tick sends them.
  - `TickPoint` gives the same fifteen measurements as points.
- `metrics.dfy`: the class `Metrics` with the thirteen counters as mutable
  fields.
  - Each mutator is proved equal, on the whole counter state, to its pure
    transition in `Counters`. `SellItems`, the loop over an order's items,
    is proved against the item count and `SumPrices` instead.
  - Each `modifies` clause names the fields that the method, or the request
    counter it calls, may assign. The `State()` equation says which of them
    change.
  - Sending a line is appending it to the ghost sequence `sent`.

Some behaviour is modelled as the code does it, even where the names suggest
otherwise:

- `resetValues` clears only the two login counters, `pizzas_sold` and
  `failed_pizzas`. Revenue and both latency sums keep accumulating across
  ticks.
- The request switch compares lowercase names exactly, so `"GET"` counts
  only towards the total.
- The `put_request` line carries the tag `method=delete`.
- A successful login counts one `put` request and one more active user.

Amounts are integers: prices in cents, times in milliseconds.

To reason about several calls in a row, go through the trace model rather
than chaining the class contracts. Each method's `State()` equation is, by
the definition of `Counters.Apply`, that function applied to the matching
`Counters.Call`. So a sequence of method calls is `Counters.Run` over the
list of those calls: `Counters.RunSnoc` adds one call at the end, and
`Counters.RunAppend` splits a trace in two. The trace lemmas
(`FromZeroCounts`, `ActiveUsersBalance`, `HttpRequestCounts`) then apply to it
directly. Chaining the class contracts is expensive for the verifier while
a `Run` fact is in scope, so a client should do one of two things:
- make at most one method call per method, and take the `Run` fact one step
  further with `RunSnoc` after it;
- or carry `Counters.CountsConsistent(State())` instead of a `Run` fact, and
  call `Counters.ApplyKeepsCounts` after each method call. This extends the
  count invariant with no trace in scope.

## Model

| member | source | states |
|---|---|---|
| Metrics.Metrics.constructor | src/metrics.js:5-21 | every counter starts at zero and nothing has been sent |
| Metrics.Metrics.ResetValues | src/metrics.js:26-31 | the two login counters and the two pizza counters become 0; the request counters keep their sum; only those four fields may change |
| Metrics.Metrics.IncrementHttpRequests | src/metrics.js:63-80 | total + 1 and latency + time; exactly the counter of a lowercase get/post/delete/put grows by one; any other name (uppercase included) changes nothing but the total and the latency |
| Metrics.Metrics.IncrementUserCount | src/metrics.js:82-85 | one request of the given method is counted and the active-user gauge grows by one |
| Metrics.Metrics.DecrementUserCount | src/metrics.js:87-90 | one delete request is counted and the gauge drops by one |
| Metrics.Metrics.AddAuthAttempt | src/metrics.js:92-100 | either way one put request is counted; success adds one login success and one active user, failure adds one failed login and leaves the gauge |
| Metrics.Metrics.SellItems | src/metrics.js:107-111 | the loop over the items adds their number to pizzas sold and the sum of their prices to revenue |
| Metrics.Metrics.UpdateOrderMetrics | src/metrics.js:102-115 | pizza latency + time and one post request always; success sells every item and leaves failed orders alone; failure counts one failed order and leaves sales and revenue alone |
| Metrics.Metrics.Tick | src/metrics.js:34-59 | the fifteen lines computed from the counters before the reset are appended in the tick's order, then the state is the reset of the old state |
| Counters.SumPrices | src/metrics.js:108-111 | definition of the revenue the `forEach` adds, the sum of the item prices; SellItems is proved against it and SumPricesAppend and SumPricesNonNegative are about it |
| Counters.SumPricesAppend | src/metrics.js:108-111 | the revenue added by two runs of items is the sum of the two |
| Counters.SumPricesNonNegative | src/metrics.js:110 | items with non-negative prices add non-negative revenue |
| Counters.IncrementHttpRequests | src/metrics.js:63-80 | definition of a request call on the counter state; the class method is proved equal to it and HttpRequestCounts sums it over traces |
| Counters.IncrementUserCount | src/metrics.js:82-85 | definition of a session start (a request of the given method, then one more active user); the class method is proved equal to it |
| Counters.DecrementUserCount | src/metrics.js:87-90 | definition of a session end (a delete request, then one active user fewer); the class method is proved equal to it |
| Counters.AddAuthAttempt | src/metrics.js:92-100 | definition of a login attempt in both branches; the class method is proved equal to it |
| Counters.UpdateOrderMetrics | src/metrics.js:102-115 | definition of an order update in both branches; the class method is proved equal to it and OrderOfTwo instantiates it |
| Counters.ResetValues | src/metrics.js:26-31 | definition of the reset of four counters; ResetValues and Tick are proved equal to it and ResetIdempotent is about it |
| Counters.ApplyKeepsCounts | src/metrics.js:63-115 | any call, whatever its times and prices, keeps every event count non-negative and the per-method sum at most the total |
| Counters.RunKeepsCounts | src/metrics.js:63-115 | the count invariant holds after any sequence of calls |
| Counters.FromZeroCounts | src/metrics.js:6-21 | from the constructor's state no sequence of calls breaks the count invariant |
| Counters.NegativeTimeBreaksSums | src/metrics.js:64 | one request with a negative time makes the latency sum negative, so the sums invariant needs measured calls |
| Counters.ApplyKeepsConsistent | src/metrics.js:63-115 | each call with non-negative times and prices, and the reset, keep every counter but the gauge non-negative and the per-method sum at most the total |
| Counters.RunKeepsConsistent | src/metrics.js:63-115 | the same holds after any sequence of calls with non-negative times and prices |
| Counters.FromZeroConsistent | src/metrics.js:6-21 | from the constructor's state every such sequence of calls keeps the store consistent |
| Counters.RunAppend | src/metrics.js:63-115 | running two sequences of calls one after the other is running their concatenation |
| Counters.RunSnoc | src/metrics.js:63-115 | running a trace and then one more call is running the trace with that call appended |
| Counters.HttpRequestCounts | src/metrics.js:63-80 | after N request calls the total grows by N, each method counter by the calls naming it, the latency by their times; the gauge, revenue and pizza latency do not move |
| Counters.ActiveUsersBalance | src/metrics.js:82-100 | the gauge after any sequence of calls is its start plus connects and successful logins minus disconnects |
| Counters.ConnectThenDisconnect | src/metrics.js:82-90 | a connect then a disconnect leave the gauge where it was, add two requests and both times to the latency |
| Counters.ResetIdempotent | src/metrics.js:26-31 | resetting twice is resetting once |
| Counters.OrderOfTwo | src/metrics.js:106-111 | a successful order of pizzas at 5 and 3 sells two for 8, adds its time to pizza latency, and leaves failed orders alone |
| LineProtocol.Encode | src/metrics.js:133 | definition of a measurement line: name, the tags each after a comma, a space, field=value; DecodeEncode and EncodeInjective are about it |
| LineProtocol.HttpLine | src/metrics.js:132-135 | definition of the HTTP builder's line; HttpLineTemplate gives its exact text |
| LineProtocol.SourceLine | src/metrics.js:118-148 | definition of the single-tag lines of the other builders; SourceLineTemplate gives their exact text |
| Decimal.DigitChar | src/metrics.js:133 | a digit value below ten is written as the matching decimal digit character |
| Decimal.DigitValue | src/metrics.js:133 | reads a digit character as the value below ten that DigitChar writes as that character |
| Decimal.NatToString | src/metrics.js:133 | a natural number is written as a non-empty run of digits, with a leading zero only for zero itself |
| Decimal.ParseNatToString | src/metrics.js:133 | reading the digits back gives the number |
| Decimal.IntToString | src/metrics.js:133 | an integer is written as digits, preceded by one minus sign exactly when it is negative |
| Decimal.IntToStringRoundTrip | src/metrics.js:133 | reading a written integer back gives the integer |
| Decimal.IntToStringInjective | src/metrics.js:133 | two integers written the same are equal |
| LineProtocol.DecodeEncode | src/metrics.js:133 | a line built from plain names, tags and field decodes back to the same measurement |
| LineProtocol.EncodeInjective | src/metrics.js:133 | two different plain measurements are never written as the same line |
| LineProtocol.SplitTags | src/metrics.js:133 | the head of a line splits at its commas into the measurement and one text per tag |
| LineProtocol.ParseTagTexts | src/metrics.js:133 | each tag text reads back as its key and value |
| LineProtocol.HttpLineTemplate | src/metrics.js:133 | an HTTP line is exactly prefix, `,source=`, source, `,method=`, method, a space, name, `=`, value |
| LineProtocol.SourceLineTemplate | src/metrics.js:118 | every other line is exactly measurement, `,source=`, source, a space, field, `=`, value |
| Report.TickPoint | src/metrics.js:38-52 | definition of the fifteen measurements of a tick, as points in send order; TickLinesArePoints, TickDecodes and TickReportsCounters are stated against it |
| Report.HttpLines | src/metrics.js:38-42 | definition of the five HTTP lines; HttpLinesArePoints is about it |
| Report.SystemLines | src/metrics.js:146-151 | definition of the cpu and memory lines; SystemLinesArePoints is about it |
| Report.ActiveUsersLine | src/metrics.js:46 | definition of the gauge line; ActiveUsersLineIsPoint is about it |
| Report.AuthenticationLines | src/metrics.js:125-130 | definition of the two login lines; AuthenticationLinesArePoints is about it |
| Report.PizzaLines | src/metrics.js:137-144 | definition of the three order lines; PizzaLinesArePoints is about it |
| Report.LatencyLines | src/metrics.js:117-123 | definition of the two latency lines; LatencyLinesArePoints is about it |
| Report.TickLines | src/metrics.js:38-52 | the fifteen lines of one tick in send order, which Tick appends; TickLinesArePoints, TickDecodes and TickReportsCounters are about it |
| Report.HttpLinesArePoints | src/metrics.js:38-42 | the five HTTP lines are total, get, post, delete and put, the put line tagged method=delete |
| Report.SystemLinesArePoints | src/metrics.js:146-151 | cpu then memory usage, each carrying the tick's figure |
| Report.ActiveUsersLineIsPoint | src/metrics.js:46 | the gauge line is the eighth measurement |
| Report.AuthenticationLinesArePoints | src/metrics.js:125-130 | failed logins before successful ones |
| Report.PizzaLinesArePoints | src/metrics.js:137-144 | purchases, failed purchases, revenue, in that order |
| Report.LatencyLinesArePoints | src/metrics.js:117-123 | pizza latency before request latency |
| Report.TickLinesArePoints | src/metrics.js:38-52 | a tick sends exactly fifteen lines, the k-th being the encoding of the k-th measurement |
| Report.TickPointsEncodable | src/metrics.js:117-151 | with a plain source tag every measurement of a tick has plain names, tags and field |
| Report.TickDecodes | src/metrics.js:38-52 | with a plain source tag each of the fifteen lines decodes to its measurement |
| Report.TickReportsCounters | src/metrics.js:38-52 | each line's value reads back as the counter it reports, or is the cpu or memory text as given |

## Left out

- Transport: the `fetch` push, its promise handling and its logging (src/metrics.js:153-169) are network I/O. Sending is appending the line to the ghost sequence `sent`.
- The bare `console.log()` before the reset (src/metrics.js:54) only logs.
- Metrics.Metrics.Tick: the `try`/`catch` around the tick (src/metrics.js:36, 56-58) is not modelled. In the source a synchronous throw in any send (for instance a missing `config.metrics` or no global `fetch`) skips the rest of the tick, including the reset at line 55, and is only logged, so the four window counters carry over into the next tick. The model has no failure inside a tick: `Tick` always sends fifteen lines and then resets.
- The timer: `setInterval`, `timer.unref()` and the constructor's start of the periodic send (src/metrics.js:23, 35, 59-60) are runtime scheduling. `Tick` is one run of the timer's callback, invoked explicitly.
- Host sampling: `getCpuUsagePercentage` and `getMemoryUsagePercentage` call the operating system and use floating-point `toFixed`. Their results enter `Tick` as two already-formatted strings.
- Numbers: JavaScript adds prices and times as floating-point numbers and prints them with its own number formatting. The model uses unbounded integers and plain decimal text, so fractional prices (0.05) and rounding are not modelled. The counters are JavaScript numbers as well: `++` and `+=` (src/metrics.js:64-77, 84, 89, 95, 98, 103, 109-110, 113) are exact only up to 2^53, where incrementing stops changing the value, while the model's `int` never stops growing.
- config.js is not part of this model. The configured source tag is the constructor's `source` parameter.
- Line protocol escaping: the source puts names into the template without escaping. The decoding round trip is proved only for measurements whose names, tags and field contain no comma, space or `=` (`Plain`).
- The route handlers that call the mutators, and the route tests, are outside the counter store and not modelled.
- Metrics.Metrics.SellItems: the `forEach` callback body is the loop of a method of its own. `UpdateOrderMetrics` calls it where the source runs `forEach`.
- Metrics.Metrics.ResetValues: "every other field unchanged" is stated by its `modifies` clause and by its state equation, not by one `ensures` per field.
- Metrics.Metrics.Tick: the callback's ten send calls (src/metrics.js:38-42, 44, 46, 48, 50, 52), which push fifteen lines, are one append of those fifteen lines. The per-group functions in `Report` stand for the send helpers and the direct active-user send, which have no state of their own.
- Metrics.Metrics.UpdateOrderMetrics: an order always has an item sequence and the status is a `bool`. In the source an order without `items` makes `forEach` throw to the caller after the pizza latency and the post request were already counted (src/metrics.js:103-108). Any truthy status counts as success there (src/metrics.js:106). Neither case is modelled.
- Metrics.Metrics.AddAuthAttempt: the status is a `bool`. The source tests `if (status)` the same way (src/metrics.js:93), so any truthy value counts as a successful login there. This is not modelled.
- Counters.RunKeepsConsistent: non-negative revenue and latency sums are proved only for calls with non-negative times and prices (`Measured`). The source checks neither, and `Counters.NegativeTimeBreaksSums` shows one negative time making the latency sum negative. The count part of the invariant (`Counters.RunKeepsCounts`) needs no such condition.
