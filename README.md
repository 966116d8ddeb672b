# Streaming event transport of the Elastic APM Ruby agent, modelled in Dafny

This project models the per-request lifecycle of the agent's outbound event stream
(`ElasticAPM::Transport::Connection` and its inner `Connection::Http`). It treats it as a
sequential state machine in which each public call is one atomic state transition.
`flush`, `connect` and `Http#close` each run inside one critical section. `write` spans
two: the connection mutex covers the connect and the append (`lib/elastic_apm/transport/connection.rb`, lines 30-33),
and the size flush or rescue flush afterwards takes the mutex again through `flush`. The
model merges the two into a single step.

- `ProxyPipe.Writer` is the producer end of the pipe whose consumer end is the request
  body. Only its interface is modelled: append, a running `bytesSent` count, close with
  a reason, and the errors an append raises. Appending after close raises `IOError`. An
  environment step `Fail` stands for the consumer side dying, after which appends raise
  `IOError` or `EPIPE`.
- `ConnectionHttp.Http` is one request epoch. Its writer is created, and the
  pre-serialised metadata is appended as the first record. Each `Write` appends behind
  everything already appended and returns the bytes sent so far. `Close` is one-shot:
  the `@closed` mutex is only ever locked and never unlocked, so it is modelled as the
  flag `closedLock`. `IsClosed` is `closed?`. The invariant `Http.Valid` says the body is
  `metadata + Concat(writes)` and that the writer received at most one close.
- `Transport.Connection` is the facade. It has an optional current `Http` and a ghost
  history `epochs` of every request opened. Its invariant says every epoch but the
  current one is closed, the epochs are distinct objects with distinct writers, and the
  current epoch satisfies `Http.Valid`. It has a
  close task `closeTask`, plus the ghost history `retired` of the tasks replaced so far;
  the invariant says none of the retired tasks is still pending. `FireTimer` is the
  explicit step of the timer's delay elapsing. `ConsumerFails` is the environment step
  of an append failing underneath.
- Pure helpers: the intake URL (`IntakeUrl`), the request headers (`BuildHeaders`),
  the TLS guard (`SslCaFile`), the proxy choice (`ProxyFor`, `BuildClientAsWritten`,
  `BuildClient`) and the response
  classification (`Classify`).
- `Scenarios` holds client methods that use only the contracts: the size-triggered
  flush, disabled sending, recovery after a broken pipe, and the timer-driven flush.

The bytes-sent count is the length of everything appended before compression.

Notable behaviour of the code, which the model keeps:
- The close timer calls `flush(:timeout)`.
- `write` returns `false` only when sending is disabled. Otherwise Ruby returns whatever
  the trailing `flush` returned (or `nil`). The model returns a `WriteOutcome`
  (`Disabled`, `Written(flushed)` or `Recovered(reason)`) that says which path was taken.
- Only `IOError` and `Errno::EPIPE` are rescued. No other failure is turned into a flush.
- This version of the code has no three-valued connection state. "Connected" is just
  "there is a current `Http` and it is not closed".
- A size, error or explicit flush does not cancel the close timer. The timer is only
  cancelled by the next `connect`. When it fires after such a flush, it closes an
  already-closed request, which changes nothing.

## Model

| member | source | states |
|---|---|---|
| `ProxyPipe.Writer.constructor` | lib/elastic_apm/transport/connection/http.rb:21-23 | a new pipe writer is empty, open, unfailed, and compresses exactly when asked |
| `ProxyPipe.Writer.Write` | lib/elastic_apm/transport/connection/http.rb:64-68 | appends the string and adds its length to the bytes sent; after close it raises IOError and appends nothing; after a consumer failure it raises that failure |
| `ProxyPipe.Writer.Close` | lib/elastic_apm/transport/connection/http.rb:39-41 | closes the writer, records the reason, keeps the data |
| `ProxyPipe.Writer.Fail` | lib/elastic_apm/transport/connection.rb:35-40 | environment step: the next appends raise the given exception (the two that `write` rescues) |
| `ConnectionHttp.ConcatAppend` | lib/elastic_apm/transport/connection/http.rb:28-30 | one more write extends the body at its end and adds its length to the total |
| `ConnectionHttp.ConcatLength` | lib/elastic_apm/transport/connection/http.rb:30 | the body's length is the running total of the appended lengths (what `bytes_sent` counts) |
| `ConnectionHttp.ConcatSplit` | lib/elastic_apm/transport/connection/http.rb:64-68 | the body of the first k writes is followed by the body of the rest |
| `ConnectionHttp.WriteIsContiguous` | lib/elastic_apm/transport/connection/http.rb:64-68 | write i is one contiguous slice of the body, starting right after the metadata and the writes before it: order is kept and nothing interleaves |
| `ConnectionHttp.TotalLengthMonotone` | lib/elastic_apm/transport/connection/http.rb:30 | the bytes-sent count after a prefix of the writes is never more than after all of them |
| `ConnectionHttp.ProxyFor` | lib/elastic_apm/transport/connection/http.rb:86-94 | the arguments of `client.via` exist exactly when both the proxy address and the port are set, and carry the configured address, port, credentials and headers |
| `ConnectionHttp.Via` | lib/elastic_apm/transport/connection/http.rb:88-94 | `via` yields a client with the same headers that uses the given proxy |
| `ConnectionHttp.BuildClientAsWritten` | lib/elastic_apm/transport/connection/http.rb:84-96 | as written, the client always carries the headers and never a proxy, because `tap` returns its receiver and drops the client `via` built |
| `ConnectionHttp.BuildClient` | lib/elastic_apm/transport/connection/http.rb:84-96 | as evidently intended, the client carries the headers and uses a proxy exactly when both the proxy address and the port are set, namely the `via` arguments |
| `ConnectionHttp.BuildClientDropsProxy` | lib/elastic_apm/transport/connection/http.rb:84-96 | the as-written and the intended client differ exactly when both the proxy address and the port are set |
| `ConnectionHttp.ProxyDroppedExample` | lib/elastic_apm/transport/connection/http.rb:85-95 | with a proxy configured at port 3128, the as-written client has no proxy while the intended one uses it |
| `ConnectionHttp.Classify` | lib/elastic_apm/transport/connection/http.rb:105-109 | status 202 is success, any other response is a server error (with its body), no response is neither |
| `ConnectionHttp.Http.constructor` | lib/elastic_apm/transport/connection/http.rb:16-26 | a new epoch is open, its writer is fresh with the configured compression, and the body is exactly the metadata |
| `ConnectionHttp.Http.Write` | lib/elastic_apm/transport/connection/http.rb:28-31 | on success the string is appended after everything before it and the result is the new bytes sent (metadata length plus the total written, never less than before); otherwise it returns the writer's exception and changes nothing; the closed flag is unchanged |
| `ConnectionHttp.Http.TryLock` | lib/elastic_apm/transport/connection/http.rb:38 | the lock is taken afterwards, and the attempt succeeds exactly when it was free |
| `ConnectionHttp.Http.IsClosed` | lib/elastic_apm/transport/connection/http.rb:58-60 | `closed?` (the one-shot lock being taken) is true exactly when the writer has been closed, and then it has received exactly one close; `TryLock` and `Close` leave the lock taken and `Write` keeps it, so once true it stays true |
| `ConnectionHttp.Http.Close` | lib/elastic_apm/transport/connection/http.rb:34-47 | afterwards the epoch is closed; on an already closed epoch nothing changes; otherwise the writer is closed once, with the given reason, and the body is kept |
| `Transport.IntakeUrl` | lib/elastic_apm/transport/connection.rb:17 | the URL starts with the server URL, and removing the intake path gives the server URL back |
| `Transport.BuildHeaders` | lib/elastic_apm/transport/connection.rb:80-96 | always the ndjson content type and chunked transfer encoding; gzip encoding exactly when compression is on; `Bearer <token>` authorization exactly when a secret token is set, and the token can be read back; no other keys |
| `Transport.SslCaFile` | lib/elastic_apm/transport/connection.rb:98-104 | a custom TLS context exists exactly when SSL is used and a CA certificate is configured, and it trusts that certificate |
| `Transport.RescueReason` | lib/elastic_apm/transport/connection.rb:35-40 | an IOError is flushed with `:ioerror` and an EPIPE with `:broken_pipe`, and the two reasons differ |
| `Transport.Cancel` | lib/elastic_apm/transport/connection.rb:73 | cancelling a pending task makes it cancelled; cancelling a task that is not pending changes nothing |
| `Transport.Connection.constructor` | lib/elastic_apm/transport/connection.rb:14-22 | the URL, headers and TLS choice are derived from the configuration, and there is no request and no timer yet |
| `Transport.Connection.ScheduleClosing` | lib/elastic_apm/transport/connection.rb:72-78 | the previous close task, if any, is cancelled and retired; a new task pending for the configured delay replaces it, so at most one task is pending |
| `Transport.Connection.Connect` | lib/elastic_apm/transport/connection.rb:64-69 | a fresh open epoch whose body is just the metadata becomes current and is added to the history; the timer is re-armed only when a request time is configured |
| `Transport.Connection.Flush` | lib/elastic_apm/transport/connection.rb:45-50 | with no request nothing changes; otherwise the current epoch is closed afterwards; closing an already closed one changes nothing; a first close records the reason and touches nothing else |
| `Transport.Connection.Write` | lib/elastic_apm/transport/connection.rb:25-42 | with sending disabled it returns `Disabled` and changes nothing; otherwise it opens a fresh epoch exactly when there is none or the current one is closed, leaving the replaced epoch and every earlier one untouched and re-arming the timer as `Connect` does, and otherwise keeps the current epoch and the timer |
| `Transport.Connection.Append` | lib/elastic_apm/transport/connection.rb:29-41 | on an open epoch: the body becomes metadata plus the writes in order; a flush with `:api_request_size` happens exactly when the bytes sent reach the threshold, and leaves the epoch closed; an IOError or EPIPE is caught, turned into a flush with `:ioerror` or `:broken_pipe`, and nothing is appended |
| `Transport.Connection.FireTimer` | lib/elastic_apm/transport/connection.rb:74-77 | the timer fires exactly when a task is pending; firing marks it fired and flushes the current epoch with `:timeout`: an open epoch is closed with that reason, an already closed one is left unchanged, and no body, other epoch or retired task changes; when nothing is pending nothing changes |
| `Transport.Connection.ConsumerFails` | lib/elastic_apm/transport/connection.rb:35-40 | environment step: the current epoch's next append raises the given exception; its body, its close calls and its closed flag are kept, and no other object changes |
| `Scenarios.SizeThreshold` | lib/elastic_apm/transport/connection.rb:31-34 | with a ten-byte threshold and empty metadata, two five-byte writes give a ten-byte body, and the second write flushes and closes the request |
| `Scenarios.DisabledSend` | lib/elastic_apm/transport/connection.rb:26 | with sending disabled, writes return `Disabled` and no request is ever opened |
| `Scenarios.BrokenPipeRecovery` | lib/elastic_apm/transport/connection.rb:38-40 | a broken pipe is caught and flushed; the next write opens a new request whose body is the metadata and that write only |
| `Scenarios.TimerFlush` | lib/elastic_apm/transport/connection.rb:65-77 | the timer closes an idle request, and the next write opens a new one and re-arms the timer |

## Findings

| source | as written | input that shows it | evidently intended | confidence | as-written member | corrected member |
|---|---|---|---|---|---|---|
| lib/elastic_apm/transport/connection/http.rb:84-96 | `build_client` returns the receiver of `HTTP.headers(headers).tap { ... }`: both `return client` and the end of the block give back the client without a proxy, and the new client returned by `client.via(...)` is discarded | `proxy_address = "proxy.local"`, `proxy_port = 3128`: the request is posted without a proxy | the request goes through the configured proxy whenever both the address and the port are set | medium; not executed (relies on `tap` returning its receiver and on the client library's `via` returning a new client) | `ConnectionHttp.BuildClientAsWritten`, `ConnectionHttp.ProxyDroppedExample` | `ConnectionHttp.BuildClient`, `ConnectionHttp.BuildClientDropsProxy` |

The rest of the model uses the intended `BuildClient`: `Http.client` is built with it.

## Left out

- Threads and locks: the request thread (`Thread.new` in `init_request`), `join(5)` and `kill` in `close`, and the `Mutex#synchronize` blocks. Each public method is treated as atomic, so races between writers and the timer are not modelled. In particular `write` releases the mutex between its append and its size or rescue flush. In that window the timer's `flush(:timeout)` and another writer's reconnect can run, and the size flush then closes that newer epoch. The model's single `Write` step cannot produce this.
- The HTTP client, its `post(...).flush`, OpenSSL and zlib are foreign libraries. Only their decision conditions are kept: the proxy condition, the TLS guard, the header choice and the status classification. `Classify` is not wired to a request thread.
- The internals of `ProxyPipe` are abstracted. Only its append / `bytes_sent` / close / raise-after-close interface is modelled, and compression is only a recorded flag.
- Real time in `Concurrent::ScheduledTask`: the timer is a pending/cancelled/fired state, and its firing is the explicit step `FireTimer`. The configured delay is only recorded.
- `JSON.fast_generate(metadata)`: the metadata is an opaque, pre-serialised string.
- Logging (`debug`, `error`) and `inspect`.
- Strings are `seq<char>` and one character stands for one byte, so `|s|` is Ruby's `bytesize` only for single-byte text; multi-byte UTF-8 characters, whose `bytesize` exceeds their length, are not modelled.
- The spies for job frameworks (`resque.rb`) are instrumentation outside the transport and are not modelled.
- Transport.Connection.Write: the Ruby return value of the non-disabled path (`nil` or the value `flush` returned) is replaced by a `WriteOutcome` naming the path taken.
- Transport.Connection.Append: no exception other than `IOError` and `EPIPE` can be raised by the modelled writer, so "no other exception is rescued" is not expressed.
- Explicit flushes close a request but do not wait for the request thread to finish, since the thread is not modelled.
