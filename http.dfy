/**
 * One request epoch: the body stream of a single streaming POST, filled with the
 * metadata record first and then with every written string, in call order.
 */
module ConnectionHttp {
  import opened Wrappers
  import opened Settings
  import opened ProxyPipe

  /** The concatenation w1 + w2 + ... of the strings written, in order. */
  function Concat(ws: seq<string>): string
  {
    if ws == [] then [] else ws[0] + Concat(ws[1..])
  }

  /** The sum of the lengths of the strings written. */
  function TotalLength(ws: seq<string>): nat
  {
    if ws == [] then 0 else |ws[0]| + TotalLength(ws[1..])
  }

  /** Appending one more write extends the body at its end. */
  lemma {:induction false} ConcatAppend(ws: seq<string>, w: string)
    ensures Concat(ws + [w]) == Concat(ws) + w
    ensures TotalLength(ws + [w]) == TotalLength(ws) + |w|
  {
    if ws != [] {
      assert (ws + [w])[1..] == ws[1..] + [w];
      ConcatAppend(ws[1..], w);
    }
  }

  /** The length of the body is the running total of the written lengths. */
  lemma {:induction false} ConcatLength(ws: seq<string>)
    ensures |Concat(ws)| == TotalLength(ws)
  {
    if ws != [] {
      ConcatLength(ws[1..]);
    }
  }

  /** The body of the first k writes is followed by the body of the remaining ones. */
  lemma {:induction false} ConcatSplit(ws: seq<string>, k: nat)
    requires k <= |ws|
    ensures Concat(ws) == Concat(ws[..k]) + Concat(ws[k..])
    ensures TotalLength(ws) == TotalLength(ws[..k]) + TotalLength(ws[k..])
  {
    if k > 0 {
      assert ws[..k][1..] == ws[1..][..k - 1];
      assert ws[k..] == ws[1..][k - 1..];
      ConcatSplit(ws[1..], k - 1);
    }
  }

  /**
   * Write i occupies one contiguous slice of the body, right after the writes
   * before it: no write is interleaved with another, and their order is kept.
   */
  lemma WriteIsContiguous(metadata: string, ws: seq<string>, i: nat)
    requires i < |ws|
    ensures var start := |metadata| + TotalLength(ws[..i]);
      var body := metadata + Concat(ws);
      start + |ws[i]| <= |body| && body[start..start + |ws[i]|] == ws[i]
  {
    ConcatSplit(ws, i);
    ConcatLength(ws[..i]);
    var rest := Concat(ws[i + 1..]);
    assert ws[i..][1..] == ws[i + 1..];
    assert Concat(ws[i..]) == ws[i] + rest;
    SliceOfThird(metadata, Concat(ws[..i]), ws[i], rest);
  }

  /** The third part of a four-part concatenation is recovered by slicing. */
  lemma SliceOfThird(m: string, a: string, b: string, c: string)
    ensures |m| + |a| + |b| <= |m + (a + (b + c))|
    ensures (m + (a + (b + c)))[|m| + |a|..|m| + |a| + |b|] == b
  {
  }

  /** The bytes-sent count never decreases as writes are added. */
  lemma TotalLengthMonotone(ws: seq<string>, k: nat)
    requires k <= |ws|
    ensures TotalLength(ws[..k]) <= TotalLength(ws)
  {
    ConcatSplit(ws, k);
  }

  /** The proxy settings passed to `client.via`. */
  datatype Proxy = Proxy(
    address: string,
    port: int,
    username: Option<string>,
    password: Option<string>,
    headers: Option<map<string, string>>)

  /** The HTTP client a request is posted with: its headers and optional proxy. */
  datatype Client = Client(headers: map<string, string>, via: Option<Proxy>)

  /** The arguments of `client.via`: present exactly when both the proxy address and the port are set. */
  function ProxyFor(config: Config): (p: Option<Proxy>)
    ensures p.Some? <==> config.proxyAddress.Some? && config.proxyPort.Some?
    ensures p.Some? ==>
      p.value.address == config.proxyAddress.value &&
      p.value.port == config.proxyPort.value &&
      p.value.username == config.proxyUsername &&
      p.value.password == config.proxyPassword &&
      p.value.headers == config.proxyHeaders
  {
    if config.proxyAddress.None? || config.proxyPort.None? then None
    else Some(Proxy(config.proxyAddress.value, config.proxyPort.value,
      config.proxyUsername, config.proxyPassword, config.proxyHeaders))
  }

  /** The client library's `via`: a new client that uses the proxy; the receiver is left as it was. */
  function Via(client: Client, proxy: Proxy): (c: Client)
    ensures c.headers == client.headers && c.via == Some(proxy)
  {
    client.(via := Some(proxy))
  }

  /**
   * `build_client` as written: the early `return client` and the end of the `tap` block
   * both hand back the receiver of `tap`, so the client built by `via` is discarded and
   * the result never has a proxy, whatever is configured.
   */
  function BuildClientAsWritten(config: Config, headers: map<string, string>): (c: Client)
    ensures c.headers == headers && c.via == None
  {
    var client := Client(headers, None);
    match ProxyFor(config)
    case None => client
    case Some(proxy) =>
      var discarded := Via(client, proxy);
      client
  }

  /**
   * `build_client` as evidently intended: the client has a proxy exactly when both the
   * proxy address and the port are configured, and that proxy carries the configured values.
   */
  function BuildClient(config: Config, headers: map<string, string>): (c: Client)
    ensures c.headers == headers
    ensures c.via == ProxyFor(config)
    ensures c.via.Some? <==> config.proxyAddress.Some? && config.proxyPort.Some?
  {
    var client := Client(headers, None);
    match ProxyFor(config)
    case None => client
    case Some(proxy) => Via(client, proxy)
  }

  /** The code as written differs from the intended client exactly when a proxy is configured. */
  lemma BuildClientDropsProxy(config: Config, headers: map<string, string>)
    ensures BuildClientAsWritten(config, headers) != BuildClient(config, headers)
      <==> config.proxyAddress.Some? && config.proxyPort.Some?
  {
  }

  /** A configured proxy at port 3128 is not used by the code as written. */
  lemma ProxyDroppedExample(config: Config)
    requires config.proxyAddress == Some("proxy.local") && config.proxyPort == Some(3128)
    ensures BuildClientAsWritten(config, map[]).via == None
    ensures BuildClient(config, map[]).via.Some? && BuildClient(config, map[]).via.value.port == 3128
  {
  }

  datatype Response = Response(status: int, body: string)

  /** What the request thread makes of the server's answer. */
  datatype PostOutcome = Accepted | ServerError(body: string) | NoResponse

  const AcceptedStatus := 202

  /** 202 is success, any other response is a server error, no response is neither. */
  function Classify(resp: Option<Response>): (o: PostOutcome)
    ensures o == Accepted <==> resp.Some? && resp.value.status == AcceptedStatus
    ensures o.ServerError? <==> resp.Some? && resp.value.status != AcceptedStatus
    ensures o.ServerError? ==> o.body == resp.value.body
    ensures o == NoResponse <==> resp.None?
  {
    match resp
    case Some(r) => if r.status == AcceptedStatus then Accepted else ServerError(r.body)
    case None => NoResponse
  }

  class Http {
    const config: Config
    const url: string
    const metadata: string
    const client: Client
    const sslContext: Option<string>
    const wr: Writer
    /** whether the one-shot `@closed` lock has been taken */
    var closedLock: bool
    /** the strings written after the metadata, in order */
    ghost var writes: seq<string>

    ghost predicate Valid()
      reads this, wr
    {
      && wr.Valid()
      && wr.compress == config.httpCompression
      && wr.data == metadata + Concat(writes)
      && (closedLock <==> wr.closed)
      && |wr.closeCalls| <= 1
    }

    /** `closed?`: the lock is taken exactly when the writer has been closed, once. */
    predicate IsClosed()
      reads this, wr
      requires Valid()
      ensures IsClosed() <==> wr.closed
      ensures IsClosed() <==> |wr.closeCalls| == 1
    {
      closedLock
    }

    /** Opens the pipe, prepares the request and appends the metadata as the first record. */
    constructor (config: Config, url: string, metadata: string,
                 headers: map<string, string>, sslContext: Option<string>)
      ensures Valid() && fresh(wr)
      ensures this.config == config && this.url == url && this.metadata == metadata
      ensures this.sslContext == sslContext && client == BuildClient(config, headers)
      ensures !closedLock && writes == [] && wr.closeCalls == [] && wr.fault == None
      ensures wr.data == metadata && wr.bytesSent == |metadata|
    {
      this.config := config;
      this.url := url;
      this.metadata := metadata;
      this.sslContext := sslContext;
      client := BuildClient(config, headers);
      wr := new Writer(config.httpCompression);
      closedLock := false;
      writes := [];
      new;
      var _ := wr.Write(metadata);
    }

    /** Appends `s` and returns the bytes sent so far, or the exception the append raised. */
    method Write(s: string) returns (r: Result<nat, WriteError>)
      requires Valid()
      modifies this, wr
      ensures Valid()
      ensures closedLock == old(closedLock) && wr.fault == old(wr.fault)
      ensures wr.closeCalls == old(wr.closeCalls)
      ensures old(closedLock) ==> r == Err(IOError)
      ensures !old(closedLock) && old(wr.fault).Some? ==> r == Err(old(wr.fault).value)
      ensures r.Ok? <==> !old(closedLock) && old(wr.fault).None?
      ensures r.Ok? ==> writes == old(writes) + [s] && wr.data == old(wr.data) + s
      ensures r.Ok? ==> r.value == wr.bytesSent == |metadata| + TotalLength(writes)
      ensures r.Ok? ==> wr.bytesSent == old(wr.bytesSent) + |s|
      ensures r.Err? ==> writes == old(writes) && wr.data == old(wr.data)
    {
      var e := wr.Write(s);
      if e.Some? {
        r := Err(e.value);
      } else {
        ConcatAppend(writes, s);
        writes := writes + [s];
        ConcatLength(writes);
        r := Ok(wr.bytesSent);
      }
    }

    /** Takes the one-shot lock; fails when it is already taken. */
    method TryLock() returns (locked: bool)
      modifies `closedLock
      ensures locked == !old(closedLock) && closedLock
    {
      locked := !closedLock;
      closedLock := true;
    }

    /** Closes the request once: the first call closes the writer with `reason`, later calls do nothing. */
    method Close(reason: CloseReason)
      requires Valid()
      modifies this, wr
      ensures Valid() && closedLock
      ensures old(closedLock) ==> unchanged(this, wr)
      ensures !old(closedLock) ==> wr.closeCalls == [reason]
      ensures writes == old(writes) && wr.data == old(wr.data) && wr.fault == old(wr.fault)
    {
      if IsClosed() {
        return;
      }
      var locked := TryLock();
      if !locked {
        return;
      }
      wr.Close(reason);
    }
  }
}
