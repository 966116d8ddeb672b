/**
 * Clients of the connection that use nothing but its contracts: each scenario is a
 * short sequence of calls whose outcome follows from the specifications alone.
 */
module Scenarios {
  import opened Wrappers
  import opened Settings
  import opened ProxyPipe
  import opened ConnectionHttp
  import opened Transport

  function LocalConfig(disableSend: bool, apiRequestSize: int, apiRequestTime: Option<int>): Config
  {
    Config("http://localhost:8200", disableSend, false, apiRequestSize, apiRequestTime,
      None, None, None, None, None, None, false, None)
  }

  /** A connection with a ten-byte threshold and empty metadata after one five-byte write. */
  method FiveBytesWritten() returns (c: Connection, first: WriteOutcome)
    ensures fresh(c) && fresh(c.Repr) && c.Valid() && first == Written(false)
    ensures c.config.apiRequestSize == 10 && !c.config.disableSend && c.metadata == ""
    ensures c.http != null && !c.http.closedLock && c.http.wr.fault == None
    ensures c.http.writes == ["12345"]
  {
    c := new Connection(LocalConfig(false, 10, None), "");
    first := c.Write("12345");
    assert c.http.writes == ["12345"] && TotalLength(c.http.writes) == 5;
  }

  /** A ten-byte threshold, empty metadata, two five-byte writes: the second write flushes. */
  method SizeThreshold() returns (first: WriteOutcome, second: WriteOutcome, body: string, closed: bool)
    ensures first == Written(false) && second == Written(true)
    ensures body == "1234512345" && closed
  {
    var c;
    c, first := FiveBytesWritten();
    assert !c.NeedsConnect();
    second := c.Write("12345");
    assert c.http.writes == ["12345", "12345"];
    ConcatAppend([], "12345");
    assert [] + ["12345"] == ["12345"];
    ConcatAppend(["12345"], "12345");
    assert TotalLength(c.http.writes) == 10 && Concat(c.http.writes) == "1234512345";
    body := c.http.wr.data;
    closed := c.http.IsClosed();
  }

  /** With sending disabled no write opens a request. */
  method DisabledSend() returns (first: WriteOutcome, second: WriteOutcome, started: bool)
    ensures first == Disabled && second == Disabled && !started
  {
    var c := new Connection(LocalConfig(true, 10, None), "M\n");
    first := c.Write("a\n");
    second := c.Write("b\n");
    c.Flush();
    started := c.http != null;
  }

  /**
   * A broken pipe under an open request is caught and flushed; the next write opens a
   * fresh request whose body is the metadata followed by that write only.
   */
  method BrokenPipeRecovery() returns (lost: WriteOutcome, next: WriteOutcome, reopened: bool, body: string)
    ensures lost == Recovered(BrokenPipe) && next == Written(false)
    ensures reopened && body == "M\nc\n"
  {
    var c := new Connection(LocalConfig(false, 1000, None), "M\n");
    var _ := c.Write("a\n");
    var before := c.http;
    c.ConsumerFails(EPIPE);
    lost := c.Write("b\n");
    next := c.Write("c\n");
    reopened := c.http != before;
    assert c.http.writes == ["c\n"];
    body := c.http.wr.data;
  }

  /** The close timer flushes an idle request; the next write re-arms it for a new request. */
  method TimerFlush() returns (fired: bool, closed: bool, rearmed: bool, reopened: bool)
    ensures fired && closed && rearmed && reopened
  {
    var c := new Connection(LocalConfig(false, 1000, Some(10)), "M\n");
    var _ := c.Write("a\n");
    var before := c.http;
    fired := c.FireTimer();
    closed := c.http.IsClosed();
    var _ := c.Write("b\n");
    rearmed := c.closeTask == Some(Pending(10));
    reopened := c.http != before;
  }
}
