/**
 * What one tick of the periodic reporter sends, in its fixed order, built
 * from the counters as they stand before the reset that ends the tick. The
 * CPU and memory figures come from the host and arrive here already as text.
 */
module Report {
  import opened Wrappers
  import Decimal
  import Counters
  import opened LineProtocol

  /** Measurement k of a tick, in the order they are sent. */
  function TickPoint(s: Counters.Snapshot, source: string, cpu: string, memory: string, k: nat): Point
    requires k < 15
  {
    if k == 0 then HttpPoint("total_request", source, "all", "total", s.totalRequests)
    else if k == 1 then HttpPoint("get_request", source, "get", "total", s.getRequests)
    else if k == 2 then HttpPoint("post_request", source, "post", "total", s.postRequests)
    else if k == 3 then HttpPoint("delete_request", source, "delete", "total", s.deleteRequests)
    else if k == 4 then HttpPoint("put_request", source, "delete", "total", s.putRequests)
    else if k == 5 then SourcePoint("cpu_usage", source, "usage", cpu)
    else if k == 6 then SourcePoint("memory_usage", source, "usage", memory)
    else if k == 7 then SourcePoint("active_users", source, "count", Decimal.IntToString(s.activeUsers))
    else if k == 8 then SourcePoint("failed_auth", source, "count", Decimal.IntToString(s.failedAuthentication))
    else if k == 9 then SourcePoint("success_auth", source, "count", Decimal.IntToString(s.successAuthentication))
    else if k == 10 then SourcePoint("pizza_purchases", source, "count", Decimal.IntToString(s.pizzasSold))
    else if k == 11 then SourcePoint("failed_purchases", source, "count", Decimal.IntToString(s.failedPizzas))
    else if k == 12 then SourcePoint("revenue", source, "count", Decimal.IntToString(s.revenue))
    else if k == 13 then SourcePoint("pizza_latency", source, "delay", Decimal.IntToString(s.pizzaLatency))
    else SourcePoint("request_latency", source, "delay", Decimal.IntToString(s.generalLatency))
  }

  /** The five request-count lines; the put counter goes out tagged method=delete. */
  function HttpLines(s: Counters.Snapshot, source: string): seq<string> {
    [ HttpLine("total_request", source, "all", "total", s.totalRequests),
      HttpLine("get_request", source, "get", "total", s.getRequests),
      HttpLine("post_request", source, "post", "total", s.postRequests),
      HttpLine("delete_request", source, "delete", "total", s.deleteRequests),
      HttpLine("put_request", source, "delete", "total", s.putRequests) ]
  }

  function SystemLines(source: string, cpu: string, memory: string): seq<string> {
    [ SourceLine("cpu_usage", source, "usage", cpu),
      SourceLine("memory_usage", source, "usage", memory) ]
  }

  function ActiveUsersLine(s: Counters.Snapshot, source: string): string {
    SourceLine("active_users", source, "count", Decimal.IntToString(s.activeUsers))
  }

  /** Failed logins first, then successful ones. */
  function AuthenticationLines(s: Counters.Snapshot, source: string): seq<string> {
    [ SourceLine("failed_auth", source, "count", Decimal.IntToString(s.failedAuthentication)),
      SourceLine("success_auth", source, "count", Decimal.IntToString(s.successAuthentication)) ]
  }

  function PizzaLines(s: Counters.Snapshot, source: string): seq<string> {
    [ SourceLine("pizza_purchases", source, "count", Decimal.IntToString(s.pizzasSold)),
      SourceLine("failed_purchases", source, "count", Decimal.IntToString(s.failedPizzas)),
      SourceLine("revenue", source, "count", Decimal.IntToString(s.revenue)) ]
  }

  function LatencyLines(s: Counters.Snapshot, source: string): seq<string> {
    [ SourceLine("pizza_latency", source, "delay", Decimal.IntToString(s.pizzaLatency)),
      SourceLine("request_latency", source, "delay", Decimal.IntToString(s.generalLatency)) ]
  }

  /** The lines of a tick as the builders write them, in the order they are sent. */
  function TickLines(s: Counters.Snapshot, source: string, cpu: string, memory: string): (lines: seq<string>)
    ensures |lines| == 15
  {
    HttpLines(s, source) + SystemLines(source, cpu, memory) + [ActiveUsersLine(s, source)] +
    AuthenticationLines(s, source) + PizzaLines(s, source) + LatencyLines(s, source)
  }

  lemma HttpPointEncodable(prefix: string, source: string, httpMethod: string, name: string, value: int)
    requires Plain(prefix) && Plain(source) && Plain(httpMethod) && Plain(name)
    ensures Encodable(HttpPoint(prefix, source, httpMethod, name, value))
  {
    assert Plain("source") && Plain("method");
  }

  lemma SourcePointEncodable(measurement: string, source: string, field: string, value: string)
    requires Plain(measurement) && Plain(source) && Plain(field)
    ensures Encodable(SourcePoint(measurement, source, field, value))
  {
    assert Plain("source");
  }

  lemma HttpNamesPlain()
    ensures Plain("total_request") && Plain("get_request") && Plain("post_request")
    ensures Plain("delete_request") && Plain("put_request") && Plain("total")
    ensures Plain("all") && Plain("get") && Plain("post") && Plain("delete")
  {
  }

  lemma SourceNamesPlain()
    ensures Plain("cpu_usage") && Plain("memory_usage") && Plain("active_users")
    ensures Plain("failed_auth") && Plain("success_auth") && Plain("pizza_purchases")
    ensures Plain("failed_purchases") && Plain("revenue") && Plain("pizza_latency")
    ensures Plain("request_latency") && Plain("usage") && Plain("count") && Plain("delay")
  {
  }

  lemma HttpLinesArePoints(s: Counters.Snapshot, source: string, cpu: string, memory: string)
    ensures var lines := HttpLines(s, source);
      |lines| == 5 && forall k :: 0 <= k < 5 ==> lines[k] == Encode(TickPoint(s, source, cpu, memory, 0 + k))
  {
  }

  lemma SystemLinesArePoints(s: Counters.Snapshot, source: string, cpu: string, memory: string)
    ensures var lines := SystemLines(source, cpu, memory);
      |lines| == 2 && forall k :: 0 <= k < 2 ==> lines[k] == Encode(TickPoint(s, source, cpu, memory, 5 + k))
  {
  }

  lemma ActiveUsersLineIsPoint(s: Counters.Snapshot, source: string, cpu: string, memory: string)
    ensures var lines := [ActiveUsersLine(s, source)];
      |lines| == 1 && forall k :: 0 <= k < 1 ==> lines[k] == Encode(TickPoint(s, source, cpu, memory, 7 + k))
  {
  }

  lemma AuthenticationLinesArePoints(s: Counters.Snapshot, source: string, cpu: string, memory: string)
    ensures var lines := AuthenticationLines(s, source);
      |lines| == 2 && forall k :: 0 <= k < 2 ==> lines[k] == Encode(TickPoint(s, source, cpu, memory, 8 + k))
  {
  }

  lemma PizzaLinesArePoints(s: Counters.Snapshot, source: string, cpu: string, memory: string)
    ensures var lines := PizzaLines(s, source);
      |lines| == 3 && forall k :: 0 <= k < 3 ==> lines[k] == Encode(TickPoint(s, source, cpu, memory, 10 + k))
  {
  }

  lemma LatencyLinesArePoints(s: Counters.Snapshot, source: string, cpu: string, memory: string)
    ensures var lines := LatencyLines(s, source);
      |lines| == 2 && forall k :: 0 <= k < 2 ==> lines[k] == Encode(TickPoint(s, source, cpu, memory, 13 + k))
  {
  }

  lemma TickLinesArePoints(s: Counters.Snapshot, source: string, cpu: string, memory: string)
    ensures var lines := TickLines(s, source, cpu, memory);
      |lines| == 15 && forall k :: 0 <= k < 15 ==> lines[k] == Encode(TickPoint(s, source, cpu, memory, k))
  {
    HttpLinesArePoints(s, source, cpu, memory);
    SystemLinesArePoints(s, source, cpu, memory);
    ActiveUsersLineIsPoint(s, source, cpu, memory);
    AuthenticationLinesArePoints(s, source, cpu, memory);
    PizzaLinesArePoints(s, source, cpu, memory);
    LatencyLinesArePoints(s, source, cpu, memory);
    var lines := TickLines(s, source, cpu, memory);
    var h, y, a := HttpLines(s, source), SystemLines(source, cpu, memory), [ActiveUsersLine(s, source)];
    var u, z, l := AuthenticationLines(s, source), PizzaLines(s, source), LatencyLines(s, source);
    forall k | 0 <= k < 15
      ensures lines[k] == Encode(TickPoint(s, source, cpu, memory, k))
    {
      if k < 5 {
        assert lines[k] == h[k];
      } else if k < 7 {
        assert lines[k] == y[k - 5];
      } else if k < 8 {
        assert lines[k] == a[k - 7];
      } else if k < 10 {
        assert lines[k] == u[k - 8];
      } else if k < 13 {
        assert lines[k] == z[k - 10];
      } else {
        assert lines[k] == l[k - 13];
      }
    }
  }

  /** With a plain source tag every measurement of a tick can be encoded. */
  lemma TickPointsEncodable(s: Counters.Snapshot, source: string, cpu: string, memory: string, k: nat)
    requires Plain(source) && k < 15
    ensures Encodable(TickPoint(s, source, cpu, memory, k))
  {
    HttpNamesPlain();
    SourceNamesPlain();
    var p := TickPoint(s, source, cpu, memory, k);
    if k < 5 {
      HttpPointEncodable(p.measurement, source, p.tags[1].value, p.field, CounterValue(s, k));
    } else {
      SourcePointEncodable(p.measurement, source, p.field, p.value);
    }
  }

  /**
   * A tick sends fifteen lines, and line k reads back as measurement k of the
   * fixed order: the five request counts (the put count tagged method=delete),
   * CPU, memory, active users, failed then successful logins, purchases,
   * failed purchases, revenue, pizza latency, request latency.
   */
  lemma TickDecodes(s: Counters.Snapshot, source: string, cpu: string, memory: string)
    requires Plain(source)
    ensures var lines := TickLines(s, source, cpu, memory);
      |lines| == 15 && forall k :: 0 <= k < 15 ==> Decode(lines[k]) == Some(TickPoint(s, source, cpu, memory, k))
  {
    TickLinesArePoints(s, source, cpu, memory);
    forall k | 0 <= k < 15
      ensures Decode(TickLines(s, source, cpu, memory)[k]) == Some(TickPoint(s, source, cpu, memory, k))
    {
      TickPointsEncodable(s, source, cpu, memory, k);
      DecodeEncode(TickPoint(s, source, cpu, memory, k));
    }
  }

  /** The counter line k of a tick reports: every line but CPU (5) and memory (6). */
  function CounterValue(s: Counters.Snapshot, k: nat): int
    requires k < 15 && k != 5 && k != 6
  {
    if k == 0 then s.totalRequests
    else if k == 1 then s.getRequests
    else if k == 2 then s.postRequests
    else if k == 3 then s.deleteRequests
    else if k == 4 then s.putRequests
    else if k == 7 then s.activeUsers
    else if k == 8 then s.failedAuthentication
    else if k == 9 then s.successAuthentication
    else if k == 10 then s.pizzasSold
    else if k == 11 then s.failedPizzas
    else if k == 12 then s.revenue
    else if k == 13 then s.pizzaLatency
    else s.generalLatency
  }

  /**
   * Each counter line of a tick carries its counter as the tick read it, as
   * text that reads back to the same integer; the CPU and memory lines carry
   * the sampled text unchanged.
   */
  lemma TickReportsCounters(s: Counters.Snapshot, source: string, cpu: string, memory: string, k: nat)
    requires k < 15
    ensures k == 5 ==> TickPoint(s, source, cpu, memory, k).value == cpu
    ensures k == 6 ==> TickPoint(s, source, cpu, memory, k).value == memory
    ensures k != 5 && k != 6 ==>
      Decimal.ParseInt(TickPoint(s, source, cpu, memory, k).value) == Some(CounterValue(s, k))
  {
    if k != 5 && k != 6 {
      Decimal.IntToStringRoundTrip(CounterValue(s, k));
    }
  }
}
