/**
 * The Metrics object of src/metrics.js: thirteen numbers updated in place by
 * the request-handling code, and a reporting tick that sends one line per
 * measurement and then clears the per-window counters.
 *
 * Sending is modelled as appending the line to the ghost sequence sent; the
 * HTTP push itself, the timer that runs the tick and the host sampling of CPU
 * and memory are outside the model (the tick takes the two figures as text).
 */
module Metrics {
  import Counters
  import Report

  class Metrics {
    /** The source tag every line carries (the configuration's metrics source). */
    const source: string

    var totalRequests: int
    var deleteRequests: int
    var postRequests: int
    var getRequests: int
    var putRequests: int

    var activeUsers: int
    var successAuthentication: int
    var failedAuthentication: int

    var pizzasSold: int
    var failedPizzas: int
    var revenue: int

    var pizzaLatency: int
    var generalLatency: int

    /** Every line sent so far, oldest first. */
    ghost var sent: seq<string>

    /** The counters as a value; it does not depend on what has been sent. */
    ghost function State(): Counters.Snapshot
      reads this`totalRequests, this`deleteRequests, this`postRequests, this`getRequests, this`putRequests
      reads this`activeUsers, this`successAuthentication, this`failedAuthentication
      reads this`pizzasSold, this`failedPizzas, this`revenue, this`pizzaLatency, this`generalLatency
    {
      Counters.Snapshot(totalRequests, deleteRequests, postRequests, getRequests, putRequests,
        activeUsers, successAuthentication, failedAuthentication,
        pizzasSold, failedPizzas, revenue, pizzaLatency, generalLatency)
    }

    constructor (source: string)
      ensures this.source == source
      ensures State() == Counters.Zero && sent == []
    {
      this.source := source;
      totalRequests, deleteRequests, postRequests, getRequests, putRequests := 0, 0, 0, 0, 0;
      activeUsers, successAuthentication, failedAuthentication := 0, 0, 0;
      pizzasSold, failedPizzas, revenue := 0, 0, 0;
      pizzaLatency, generalLatency := 0, 0;
      sent := [];
    }

    /** Clears the two login counters and the two pizza counters, and nothing else. */
    method ResetValues()
      modifies this`successAuthentication, this`failedAuthentication, this`pizzasSold, this`failedPizzas
      ensures State() == Counters.ResetValues(old(State()))
      ensures successAuthentication == 0 && failedAuthentication == 0
      ensures pizzasSold == 0 && failedPizzas == 0
      ensures Counters.MethodSum(State()) == Counters.MethodSum(old(State()))
    {
      successAuthentication := 0;
      failedAuthentication := 0;
      pizzasSold := 0;
      failedPizzas := 0;
    }

    /** Counts one request of method t that took time. */
    method IncrementHttpRequests(t: string, time: int)
      modifies this`totalRequests, this`generalLatency, this`getRequests, this`postRequests, this`deleteRequests, this`putRequests
      ensures State() == Counters.IncrementHttpRequests(old(State()), t, time)
      ensures totalRequests == old(totalRequests) + 1
      ensures generalLatency == old(generalLatency) + time
      ensures Counters.MethodSum(State()) == Counters.MethodSum(old(State())) + (if Counters.IsCountedMethod(t) then 1 else 0)
      ensures t == "get" ==> getRequests == old(getRequests) + 1
      ensures t == "post" ==> postRequests == old(postRequests) + 1
      ensures t == "delete" ==> deleteRequests == old(deleteRequests) + 1
      ensures t == "put" ==> putRequests == old(putRequests) + 1
      ensures !Counters.IsCountedMethod(t) ==>
        State() == old(State()).(totalRequests := totalRequests, generalLatency := generalLatency)
    {
      generalLatency := generalLatency + time;
      totalRequests := totalRequests + 1;
      if t == "get" {
        getRequests := getRequests + 1;
      } else if t == "post" {
        postRequests := postRequests + 1;
      } else if t == "delete" {
        deleteRequests := deleteRequests + 1;
      } else if t == "put" {
        putRequests := putRequests + 1;
      }
    }

    /** A user session starts: one request of method t, and one more active user. */
    method IncrementUserCount(t: string, time: int)
      modifies this`totalRequests, this`generalLatency, this`getRequests, this`postRequests, this`deleteRequests, this`putRequests, this`activeUsers
      ensures State() == Counters.IncrementUserCount(old(State()), t, time)
      ensures activeUsers == old(activeUsers) + 1
      ensures totalRequests == old(totalRequests) + 1 && generalLatency == old(generalLatency) + time
    {
      IncrementHttpRequests(t, time);
      activeUsers := activeUsers + 1;
    }

    /** A user session ends: one delete request, and one active user fewer. */
    method DecrementUserCount(time: int)
      modifies this`totalRequests, this`generalLatency, this`getRequests, this`postRequests, this`deleteRequests, this`putRequests, this`activeUsers
      ensures State() == Counters.DecrementUserCount(old(State()), time)
      ensures activeUsers == old(activeUsers) - 1
      ensures deleteRequests == old(deleteRequests) + 1
      ensures totalRequests == old(totalRequests) + 1 && generalLatency == old(generalLatency) + time
    {
      IncrementHttpRequests("delete", time);
      activeUsers := activeUsers - 1;
    }

    /**
     * A login attempt counts as a put request either way; a successful one
     * also starts a user session.
     */
    method AddAuthAttempt(status: bool, time: int)
      modifies this`totalRequests, this`generalLatency, this`getRequests, this`postRequests, this`deleteRequests, this`putRequests,
        this`activeUsers, this`successAuthentication, this`failedAuthentication
      ensures State() == Counters.AddAuthAttempt(old(State()), status, time)
      ensures putRequests == old(putRequests) + 1 && totalRequests == old(totalRequests) + 1
      ensures generalLatency == old(generalLatency) + time
      ensures status ==> successAuthentication == old(successAuthentication) + 1 &&
                         failedAuthentication == old(failedAuthentication) &&
                         activeUsers == old(activeUsers) + 1
      ensures !status ==> failedAuthentication == old(failedAuthentication) + 1 &&
                          successAuthentication == old(successAuthentication) &&
                          activeUsers == old(activeUsers)
    {
      if status {
        IncrementUserCount("put", time);
        successAuthentication := successAuthentication + 1;
      } else {
        IncrementHttpRequests("put", time);
        failedAuthentication := failedAuthentication + 1;
      }
    }

    /** The loop over a successful order's items: each one is a pizza sold at its price. */
    method SellItems(items: seq<Counters.Item>)
      modifies this`pizzasSold, this`revenue
      ensures pizzasSold == old(pizzasSold) + |items|
      ensures revenue == old(revenue) + Counters.SumPrices(items)
    {
      var i := 0;
      while i < |items|
        invariant 0 <= i <= |items|
        invariant pizzasSold == old(pizzasSold) + i
        invariant revenue == old(revenue) + Counters.SumPrices(items[..i])
      {
        pizzasSold := pizzasSold + 1;
        revenue := revenue + items[i].price;
        assert items[..i + 1] == items[..i] + [items[i]];
        Counters.SumPricesAppend(items[..i], [items[i]]);
        assert Counters.SumPrices([items[i]]) == items[i].price;
        i := i + 1;
      }
      assert items[..i] == items;
    }

    /**
     * An order counts as a post request and adds its time to the pizza
     * latency; a successful one sells each of its items, a failed one counts
     * one failed order.
     */
    method UpdateOrderMetrics(order: Counters.Order, status: bool, time: int)
      modifies this`totalRequests, this`generalLatency, this`getRequests, this`postRequests, this`deleteRequests, this`putRequests,
        this`pizzaLatency, this`pizzasSold, this`revenue, this`failedPizzas
      ensures State() == Counters.UpdateOrderMetrics(old(State()), order, status, time)
      ensures pizzaLatency == old(pizzaLatency) + time && generalLatency == old(generalLatency) + time
      ensures postRequests == old(postRequests) + 1 && totalRequests == old(totalRequests) + 1
      ensures status ==> pizzasSold == old(pizzasSold) + |order.items| &&
                         revenue == old(revenue) + Counters.SumPrices(order.items) &&
                         failedPizzas == old(failedPizzas)
      ensures !status ==> failedPizzas == old(failedPizzas) + 1 &&
                          pizzasSold == old(pizzasSold) && revenue == old(revenue)
    {
      pizzaLatency := pizzaLatency + time;
      IncrementHttpRequests("post", time);
      ghost var counted := State();
      assert counted == Counters.IncrementHttpRequests(old(State()).(pizzaLatency := old(pizzaLatency) + time), "post", time);
      if status {
        SellItems(order.items);
      } else {
        failedPizzas := failedPizzas + 1;
      }
    }

    /**
     * One reporting tick: the fifteen lines of the counters as they stand,
     * in the fixed order, are sent, then the per-window counters are reset.
     * cpu and memory are the host figures already formatted as text.
     */
    method Tick(cpu: string, memory: string)
      modifies this`sent, this`successAuthentication, this`failedAuthentication, this`pizzasSold, this`failedPizzas
      ensures sent == old(sent) + Report.TickLines(old(State()), source, cpu, memory)
      ensures State() == Counters.ResetValues(old(State()))
    {
      sent := sent + Report.TickLines(State(), source, cpu, memory);
      ResetValues();
    }
  }
}
