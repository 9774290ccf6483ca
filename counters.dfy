/**
 * The counter store of src/metrics.js as a value, and what each mutator does
 * to it. The class in metrics.dfy keeps the same thirteen numbers in fields
 * and proves each of its methods against the functions here; the lemmas here
 * speak about whole sequences of calls.
 *
 * Prices and elapsed times are integers (cents, milliseconds).
 */
module Counters {

  datatype Item = Item(price: int)

  datatype Order = Order(items: seq<Item>)

  datatype Snapshot = Snapshot(
    totalRequests: int,
    deleteRequests: int,
    postRequests: int,
    getRequests: int,
    putRequests: int,
    activeUsers: int,
    successAuthentication: int,
    failedAuthentication: int,
    pizzasSold: int,
    failedPizzas: int,
    revenue: int,
    pizzaLatency: int,
    generalLatency: int)

  /** The state the constructor leaves. */
  const Zero := Snapshot(0, 0, 0, 0, 0, 0, 0, 0, 0, 0, 0, 0, 0)

  /** The method names the request switch recognises; it compares exactly, so "GET" is not one. */
  predicate IsCountedMethod(t: string) {
    t == "get" || t == "post" || t == "delete" || t == "put"
  }

  /** The per-method request counters added up. */
  function MethodSum(s: Snapshot): int {
    s.getRequests + s.postRequests + s.deleteRequests + s.putRequests
  }

  function SumPrices(items: seq<Item>): int {
    if items == [] then 0 else items[0].price + SumPrices(items[1..])
  }

  lemma {:induction false} SumPricesAppend(a: seq<Item>, b: seq<Item>)
    ensures SumPrices(a + b) == SumPrices(a) + SumPrices(b)
    decreases |a|
  {
    if a == [] {
      assert a + b == b;
    } else {
      assert (a + b)[1..] == a[1..] + b;
      SumPricesAppend(a[1..], b);
    }
  }

  lemma {:induction false} SumPricesNonNegative(items: seq<Item>)
    requires forall k :: 0 <= k < |items| ==> items[k].price >= 0
    ensures SumPrices(items) >= 0
    decreases |items|
  {
    if items != [] {
      SumPricesNonNegative(items[1..]);
    }
  }

  function IncrementHttpRequests(s: Snapshot, t: string, time: int): Snapshot {
    var s1 := s.(generalLatency := s.generalLatency + time, totalRequests := s.totalRequests + 1);
    if t == "get" then s1.(getRequests := s1.getRequests + 1)
    else if t == "post" then s1.(postRequests := s1.postRequests + 1)
    else if t == "delete" then s1.(deleteRequests := s1.deleteRequests + 1)
    else if t == "put" then s1.(putRequests := s1.putRequests + 1)
    else s1
  }

  function IncrementUserCount(s: Snapshot, t: string, time: int): Snapshot {
    var s1 := IncrementHttpRequests(s, t, time);
    s1.(activeUsers := s1.activeUsers + 1)
  }

  function DecrementUserCount(s: Snapshot, time: int): Snapshot {
    var s1 := IncrementHttpRequests(s, "delete", time);
    s1.(activeUsers := s1.activeUsers - 1)
  }

  function AddAuthAttempt(s: Snapshot, status: bool, time: int): Snapshot {
    if status then
      var s1 := IncrementUserCount(s, "put", time);
      s1.(successAuthentication := s1.successAuthentication + 1)
    else
      var s1 := IncrementHttpRequests(s, "put", time);
      s1.(failedAuthentication := s1.failedAuthentication + 1)
  }

  function UpdateOrderMetrics(s: Snapshot, order: Order, status: bool, time: int): Snapshot {
    var s1 := IncrementHttpRequests(s.(pizzaLatency := s.pizzaLatency + time), "post", time);
    if status then
      s1.(pizzasSold := s1.pizzasSold + |order.items|, revenue := s1.revenue + SumPrices(order.items))
    else
      s1.(failedPizzas := s1.failedPizzas + 1)
  }

  /** Only these four counters are cleared; revenue and both latency sums keep accumulating. */
  function ResetValues(s: Snapshot): Snapshot {
    s.(successAuthentication := 0, failedAuthentication := 0, pizzasSold := 0, failedPizzas := 0)
  }

  /** One call into the store: a mutator, or the reset at the end of a reporting tick. */
  datatype Call =
    | HttpRequest(httpMethod: string, time: int)
    | UserConnect(httpMethod: string, time: int)
    | UserDisconnect(time: int)
    | AuthAttempt(succeeded: bool, time: int)
    | OrderUpdate(order: Order, succeeded: bool, time: int)
    | Reset

  function Apply(s: Snapshot, c: Call): Snapshot {
    match c
    case HttpRequest(t, time) => IncrementHttpRequests(s, t, time)
    case UserConnect(t, time) => IncrementUserCount(s, t, time)
    case UserDisconnect(time) => DecrementUserCount(s, time)
    case AuthAttempt(ok, time) => AddAuthAttempt(s, ok, time)
    case OrderUpdate(order, ok, time) => UpdateOrderMetrics(s, order, ok, time)
    case Reset => ResetValues(s)
  }

  /** The state after the calls, in order. */
  function Run(s: Snapshot, calls: seq<Call>): Snapshot
    decreases |calls|
  {
    if calls == [] then s else Run(Apply(s, calls[0]), calls[1..])
  }

  /** Elapsed times and prices are never negative. */
  predicate Measured(c: Call) {
    match c
    case HttpRequest(_, time) => time >= 0
    case UserConnect(_, time) => time >= 0
    case UserDisconnect(time) => time >= 0
    case AuthAttempt(_, time) => time >= 0
    case OrderUpdate(order, _, time) =>
      time >= 0 && forall k :: 0 <= k < |order.items| ==> order.items[k].price >= 0
    case Reset => true
  }

  /**
   * Every event count is non-negative, and the per-method counters never add
   * up to more than the total. No call can break this, whatever its inputs.
   */
  predicate CountsConsistent(s: Snapshot) {
    MethodSum(s) <= s.totalRequests &&
    s.totalRequests >= 0 && s.getRequests >= 0 && s.postRequests >= 0 &&
    s.deleteRequests >= 0 && s.putRequests >= 0 &&
    s.successAuthentication >= 0 && s.failedAuthentication >= 0 &&
    s.pizzasSold >= 0 && s.failedPizzas >= 0
  }

  /** Revenue and both latency sums are non-negative; this needs measured calls. */
  predicate SumsNonNegative(s: Snapshot) {
    s.revenue >= 0 && s.pizzaLatency >= 0 && s.generalLatency >= 0
  }

  /** Every counter but the active-user gauge is non-negative, and the method counters stay within the total. */
  predicate Consistent(s: Snapshot) {
    CountsConsistent(s) && SumsNonNegative(s)
  }

  lemma ApplyKeepsCounts(s: Snapshot, c: Call)
    requires CountsConsistent(s)
    ensures CountsConsistent(Apply(s, c))
  {
  }

  lemma {:induction false} RunKeepsCounts(s: Snapshot, calls: seq<Call>)
    requires CountsConsistent(s)
    ensures CountsConsistent(Run(s, calls))
    decreases |calls|
  {
    if calls != [] {
      ApplyKeepsCounts(s, calls[0]);
      RunKeepsCounts(Apply(s, calls[0]), calls[1..]);
    }
  }

  /** From the constructor's state, no sequence of calls breaks the count invariant. */
  lemma FromZeroCounts(calls: seq<Call>)
    ensures CountsConsistent(Run(Zero, calls))
  {
    RunKeepsCounts(Zero, calls);
  }

  lemma ApplyKeepsConsistent(s: Snapshot, c: Call)
    requires Consistent(s) && Measured(c)
    ensures Consistent(Apply(s, c))
  {
    ApplyKeepsCounts(s, c);
    if c.OrderUpdate? && c.succeeded {
      SumPricesNonNegative(c.order.items);
    }
  }

  lemma {:induction false} RunKeepsConsistent(s: Snapshot, calls: seq<Call>)
    requires Consistent(s)
    requires forall k :: 0 <= k < |calls| ==> Measured(calls[k])
    ensures Consistent(Run(s, calls))
    decreases |calls|
  {
    if calls != [] {
      ApplyKeepsConsistent(s, calls[0]);
      RunKeepsConsistent(Apply(s, calls[0]), calls[1..]);
    }
  }

  /** From the constructor's state, every sequence of measured calls keeps the store consistent. */
  lemma FromZeroConsistent(calls: seq<Call>)
    requires forall k :: 0 <= k < |calls| ==> Measured(calls[k])
    ensures Consistent(Run(Zero, calls))
  {
    RunKeepsConsistent(Zero, calls);
  }

  /** The source does not check times: one request with a negative time makes the latency sum negative. */
  lemma NegativeTimeBreaksSums()
    ensures !SumsNonNegative(Run(Zero, [HttpRequest("get", -1)]))
  {
    assert [HttpRequest("get", -1)][1..] == [];
  }

  lemma {:induction false} RunAppend(s: Snapshot, a: seq<Call>, b: seq<Call>)
    ensures Run(s, a + b) == Run(Run(s, a), b)
    decreases |a|
  {
    if a == [] {
      assert a + b == b;
    } else {
      assert (a + b)[1..] == a[1..] + b;
      RunAppend(Apply(s, a[0]), a[1..], b);
    }
  }

  /** One more call at the end of a trace: how a sequence of method calls is folded into Run step by step. */
  lemma RunSnoc(s: Snapshot, calls: seq<Call>, c: Call)
    ensures Run(s, calls + [c]) == Apply(Run(s, calls), c)
  {
    RunAppend(s, calls, [c]);
    assert [c][1..] == [];
  }

  /** How many HttpRequest calls name method m. */
  function CountMethod(calls: seq<Call>, m: string): nat {
    if calls == [] then 0
    else (if calls[0].HttpRequest? && calls[0].httpMethod == m then 1 else 0) + CountMethod(calls[1..], m)
  }

  /** The elapsed times of the calls added up. */
  function SumTimes(calls: seq<Call>): int {
    if calls == [] then 0
    else (if calls[0].Reset? then 0 else calls[0].time) + SumTimes(calls[1..])
  }

  /**
   * After N request calls each per-method counter has grown by the number of
   * calls naming that method, the total by N and the latency sum by their times.
   */
  lemma {:induction false} HttpRequestCounts(s: Snapshot, calls: seq<Call>)
    requires forall k :: 0 <= k < |calls| ==> calls[k].HttpRequest?
    ensures var r := Run(s, calls);
      r.totalRequests == s.totalRequests + |calls| &&
      r.getRequests == s.getRequests + CountMethod(calls, "get") &&
      r.postRequests == s.postRequests + CountMethod(calls, "post") &&
      r.deleteRequests == s.deleteRequests + CountMethod(calls, "delete") &&
      r.putRequests == s.putRequests + CountMethod(calls, "put") &&
      r.generalLatency == s.generalLatency + SumTimes(calls) &&
      r.activeUsers == s.activeUsers && r.revenue == s.revenue && r.pizzaLatency == s.pizzaLatency
    decreases |calls|
  {
    if calls != [] {
      HttpRequestCounts(Apply(s, calls[0]), calls[1..]);
    }
  }

  /** The gauge moves by one on each connect and successful login, and back by one on each disconnect. */
  function UserBalance(calls: seq<Call>): int {
    if calls == [] then 0
    else
      (match calls[0]
       case UserConnect(_, _) => 1
       case AuthAttempt(ok, _) => if ok then 1 else 0
       case UserDisconnect(_) => -1
       case _ => 0) + UserBalance(calls[1..])
  }

  /** Nothing but connects, disconnects and successful logins moves the gauge, and no reset touches it. */
  lemma {:induction false} ActiveUsersBalance(s: Snapshot, calls: seq<Call>)
    ensures Run(s, calls).activeUsers == s.activeUsers + UserBalance(calls)
    decreases |calls|
  {
    if calls != [] {
      ActiveUsersBalance(Apply(s, calls[0]), calls[1..]);
    }
  }

  /** A connect followed by a disconnect leaves the gauge where it was and counts two requests. */
  lemma ConnectThenDisconnect(s: Snapshot, t: string, time: int, time': int)
    ensures var r := Run(s, [UserConnect(t, time), UserDisconnect(time')]);
      r.activeUsers == s.activeUsers &&
      r.totalRequests == s.totalRequests + 2 &&
      r.generalLatency == s.generalLatency + time + time'
  {
    var calls := [UserConnect(t, time), UserDisconnect(time')];
    ActiveUsersBalance(s, calls);
    RunAppend(s, [calls[0]], [calls[1]]);
    assert calls == [calls[0]] + [calls[1]];
  }

  /** Resetting an already reset store changes nothing. */
  lemma ResetIdempotent(s: Snapshot)
    ensures ResetValues(ResetValues(s)) == ResetValues(s)
  {
  }

  /** A successful order of pizzas priced 5 and 3 sells two pizzas for 8. */
  lemma OrderOfTwo(s: Snapshot, time: int)
    ensures var r := UpdateOrderMetrics(s, Order([Item(5), Item(3)]), true, time);
      r.pizzasSold == s.pizzasSold + 2 && r.revenue == s.revenue + 8 &&
      r.pizzaLatency == s.pizzaLatency + time && r.failedPizzas == s.failedPizzas
  {
    assert SumPrices([Item(5), Item(3)]) == 8 by {
      assert [Item(5), Item(3)][1..] == [Item(3)];
      assert [Item(3)][1..] == [];
    }
  }
}
