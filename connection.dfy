/**
 * The connection facade: it holds at most one open request epoch, opens a new one
 * when the current one is missing or closed, flushes it on size, error, timer or
 * explicit request, and re-arms a one-shot close timer for every new epoch.
 */
module Transport {
  import opened Wrappers
  import opened Settings
  import opened ProxyPipe
  import opened ConnectionHttp

  const IntakePath := "/intake/v2/events"

  /** The server URL an intake URL was built from, if it ends with the intake path. */
  function ServerUrlOf(url: string): Option<string>
  {
    if |IntakePath| <= |url| && url[|url| - |IntakePath|..] == IntakePath
    then Some(url[..|url| - |IntakePath|])
    else None
  }

  /** The events endpoint below the configured server URL. */
  function IntakeUrl(serverUrl: string): (url: string)
    ensures |serverUrl| <= |url| && url[..|serverUrl|] == serverUrl
    ensures ServerUrlOf(url) == Some(serverUrl)
  {
    serverUrl + IntakePath
  }

  const ContentTypeKey := "Content-Type"
  const TransferEncodingKey := "Transfer-Encoding"
  const ContentEncodingKey := "Content-Encoding"
  const AuthorizationKey := "Authorization"
  const BearerPrefix := "Bearer "

  const Headers: map<string, string> :=
    map[ContentTypeKey := "application/x-ndjson", TransferEncodingKey := "chunked"]
  const GzipHeaders: map<string, string> := Headers[ContentEncodingKey := "gzip"]

  /** The token carried by an `Authorization: Bearer <token>` header, if any. */
  function BearerToken(headers: map<string, string>): Option<string>
  {
    if AuthorizationKey in headers && |BearerPrefix| <= |headers[AuthorizationKey]|
       && headers[AuthorizationKey][..|BearerPrefix|] == BearerPrefix
    then Some(headers[AuthorizationKey][|BearerPrefix|..])
    else None
  }

  /**
   * The request headers: always the content type and chunked encoding, gzip encoding
   * exactly when compression is on, a bearer token exactly when a secret token is set,
   * and nothing else.
   */
  function BuildHeaders(config: Config): (h: map<string, string>)
    ensures h.Keys <= {ContentTypeKey, TransferEncodingKey, ContentEncodingKey, AuthorizationKey}
    ensures ContentTypeKey in h && h[ContentTypeKey] == "application/x-ndjson"
    ensures TransferEncodingKey in h && h[TransferEncodingKey] == "chunked"
    ensures ContentEncodingKey in h <==> config.httpCompression
    ensures ContentEncodingKey in h ==> h[ContentEncodingKey] == "gzip"
    ensures AuthorizationKey in h <==> config.secretToken.Some?
    ensures AuthorizationKey in h ==> h[AuthorizationKey] == BearerPrefix + config.secretToken.value
    ensures BearerToken(h) == config.secretToken
  {
    var base := if config.httpCompression then GzipHeaders else Headers;
    match config.secretToken
    case Some(token) => base[AuthorizationKey := BearerPrefix + token]
    case None => base
  }

  /** The CA file of a custom TLS context: only when SSL is used and a CA certificate is configured. */
  function SslCaFile(config: Config): (ca: Option<string>)
    ensures ca.Some? <==> config.useSsl && config.serverCaCert.Some?
    ensures ca.Some? ==> ca.value == config.serverCaCert.value
  {
    if config.useSsl && config.serverCaCert.Some? then config.serverCaCert else None
  }

  /** The state of one scheduled close task. */
  datatype TaskState = Pending(delay: int) | Cancelled | Fired

  /** Cancelling a pending task stops it; cancelling a fired or cancelled one does nothing. */
  function Cancel(t: TaskState): (t': TaskState)
    ensures !t'.Pending?
    ensures t.Pending? ==> t' == Cancelled
    ensures !t.Pending? ==> t' == t
  {
    if t.Pending? then Cancelled else t
  }

  /** The flush reason for an exception caught while writing. */
  function RescueReason(e: WriteError): (reason: CloseReason)
    ensures reason == IoError <==> e == IOError
    ensures reason == BrokenPipe <==> e == EPIPE
  {
    match e
    case IOError => IoError
    case EPIPE => BrokenPipe
  }

  /**
   * What a write did: nothing because sending is disabled; appended (and then flushed
   * when the threshold was reached); or caught an exception and flushed for it.
   */
  datatype WriteOutcome = Disabled | Written(flushed: bool) | Recovered(reason: CloseReason)

  class Connection {
    const config: Config
    const metadata: string
    const url: string
    const headers: map<string, string>
    const sslContext: Option<string>
    /** the current request epoch, if one was ever opened */
    var http: Http?
    /** the most recently scheduled close task */
    var closeTask: Option<TaskState>
    /** the close tasks replaced by later ones, in order */
    ghost var retired: seq<TaskState>
    /** every epoch opened so far, in order; the last one is `http` */
    ghost var epochs: seq<Http>
    ghost var Repr: set<object>

    /** Every epoch belongs to this connection and owns its own writer. */
    ghost predicate EpochsValid()
      reads this, Repr
    {
      && (forall i :: 0 <= i < |epochs| ==>
            && epochs[i] in Repr && epochs[i].wr in Repr
            && epochs[i].config == config && epochs[i].url == url && epochs[i].metadata == metadata)
      && (forall i, j :: 0 <= i < j < |epochs| ==> epochs[i] != epochs[j] && epochs[i].wr != epochs[j].wr)
    }

    /** Every epoch but the current one is closed. */
    ghost predicate EarlierEpochsClosed()
      reads this, Repr
      requires EpochsValid()
    {
      forall i :: 0 <= i < |epochs| - 1 ==> epochs[i].closedLock
    }

    /** Only the most recent close task can still be pending. */
    ghost predicate TimerValid()
      reads this
    {
      && (forall k :: 0 <= k < |retired| ==> !retired[k].Pending?)
      && (config.apiRequestTime.None? ==> closeTask.None? && retired == [])
    }

    ghost predicate Valid()
      reads this, Repr
    {
      && this !in Repr
      && (http == null <==> epochs == [])
      && (http != null ==> http == epochs[|epochs| - 1])
      && EpochsValid()
      && (http != null ==> http.Valid())
      && EarlierEpochsClosed()
      && TimerValid()
      && (closeTask.Some? ==> epochs != [])
    }

    /** Whether the next write must open a new epoch. */
    ghost predicate NeedsConnect()
      reads this, Repr
      requires Valid()
    {
      http == null || http.closedLock
    }

    /** The objects of the current epoch: the only ones a call may change. */
    ghost function Current(): set<object>
      reads this
    {
      if http == null then {} else {http, http.wr}
    }

    constructor (config: Config, metadata: string)
      ensures Valid() && fresh(Repr)
      ensures this.config == config && this.metadata == metadata
      ensures url == IntakeUrl(config.serverUrl)
      ensures headers == BuildHeaders(config) && sslContext == SslCaFile(config)
      ensures http == null && epochs == [] && closeTask == None && retired == []
    {
      this.config := config;
      this.metadata := metadata;
      url := IntakeUrl(config.serverUrl);
      headers := BuildHeaders(config);
      sslContext := SslCaFile(config);
      http := null;
      closeTask := None;
      retired := [];
      epochs := [];
      Repr := {};
    }

    /** Cancels the current close task, if any, and schedules a fresh one. */
    method ScheduleClosing()
      requires TimerValid() && config.apiRequestTime.Some?
      modifies `closeTask, `retired
      ensures TimerValid()
      ensures closeTask == Some(Pending(config.apiRequestTime.value))
      ensures retired == old(retired) + (if old(closeTask).Some? then [Cancel(old(closeTask).value)] else [])
    {
      if closeTask.Some? {
        retired := retired + [Cancel(closeTask.value)];
      }
      closeTask := Some(Pending(config.apiRequestTime.value));
    }

    /** Opens a new epoch; the caller does so only when there is none or it is closed. */
    method Connect()
      requires Valid() && NeedsConnect()
      modifies this
      ensures Valid() && fresh(http) && fresh(http.wr)
      ensures epochs == old(epochs) + [http] && Repr == old(Repr) + {http, http.wr}
      ensures !http.closedLock && http.writes == [] && http.wr.data == metadata
      ensures http.wr.closeCalls == [] && http.wr.fault == None
      ensures http.client == BuildClient(config, headers) && http.sslContext == sslContext
      ensures config.apiRequestTime.Some? ==>
        closeTask == Some(Pending(config.apiRequestTime.value)) &&
        retired == old(retired) + (if old(closeTask).Some? then [Cancel(old(closeTask).value)] else [])
      ensures config.apiRequestTime.None? ==> closeTask == old(closeTask) && retired == old(retired)
    {
      if config.apiRequestTime.Some? {
        ScheduleClosing();
      }
      var h := new Http(config, url, metadata, headers, sslContext);
      ghost var before := epochs;
      http, epochs, Repr := h, epochs + [h], Repr + {h, h.wr};
      forall i, j | 0 <= i < j < |epochs|
        ensures epochs[i] != epochs[j] && epochs[i].wr != epochs[j].wr
      {
        if j == |before| {
          assert epochs[i] == before[i] && epochs[i] in old(Repr) && epochs[i].wr in old(Repr);
        }
      }
      assert EpochsValid();
      assert EarlierEpochsClosed();
    }

    /** Closes the current epoch with `reason`; does nothing without one or when it is closed. */
    method Flush(reason: CloseReason := Force)
      requires Valid()
      modifies Repr
      ensures Valid()
      ensures old(http) == null ==> unchanged(Repr)
      ensures http != null ==> http.closedLock
      ensures http != null && old(http.closedLock) ==> unchanged(Repr)
      ensures http != null && !old(http.closedLock) ==>
        http.wr.closeCalls == [reason] && unchanged(Repr - {http, http.wr})
      ensures http != null ==> http.writes == old(http.writes) && http.wr.data == old(http.wr.data)
      ensures http != null ==> http.wr.fault == old(http.wr.fault)
    {
      if http == null {
        return;
      }
      http.Close(reason);
    }

    /**
     * Appends `s` to the current epoch, opening a new one first when there is none or it
     * is closed, and flushes when the bytes sent reach the size threshold. An IOError or
     * EPIPE from the append is caught and turned into a flush with its own reason.
     */
    method Write(s: string) returns (r: WriteOutcome)
      requires Valid()
      modifies this, Repr
      ensures Valid() && fresh(Repr - old(Repr)) && unchanged(old(Repr - Current()))
      ensures config.disableSend ==> r == Disabled && unchanged(this) && unchanged(Repr)
      ensures !config.disableSend ==> r != Disabled && http != null
      ensures !config.disableSend && old(NeedsConnect()) ==>
        && fresh(http) && epochs == old(epochs) + [http] && Repr == old(Repr) + {http, http.wr}
        && closeTask == (if config.apiRequestTime.Some? then Some(Pending(config.apiRequestTime.value))
                         else old(closeTask))
        && retired == old(retired) +
             (if config.apiRequestTime.Some? && old(closeTask).Some? then [Cancel(old(closeTask).value)] else [])
      ensures !config.disableSend && old(NeedsConnect()) ==> unchanged(old(Repr))
      ensures !config.disableSend && !old(NeedsConnect()) ==>
        && http == old(http) && epochs == old(epochs) && Repr == old(Repr)
        && closeTask == old(closeTask) && retired == old(retired)
      ensures r.Recovered? <==> !config.disableSend && !old(NeedsConnect()) && old(http.wr.fault).Some?
      ensures r.Recovered? ==>
        && r.reason == RescueReason(old(http.wr.fault).value)
        && http.closedLock && http.wr.closeCalls == [r.reason]
        && http.writes == old(http.writes) && http.wr.data == old(http.wr.data)
      ensures r.Written? ==>
        && http.writes == (if old(NeedsConnect()) then [] else old(http.writes)) + [s]
        && http.wr.data == metadata + Concat(http.writes) && http.wr.fault == None
        && (r.flushed <==> |metadata| + TotalLength(http.writes) >= config.apiRequestSize)
        && (http.closedLock <==> r.flushed)
        && (r.flushed ==> http.wr.closeCalls == [ApiRequestSize])
    {
      if config.disableSend {
        return Disabled;
      }
      if http == null || http.IsClosed() {
        Connect();
      }
      r := Append(s);
    }

    /**
     * The part of a write that runs on an open epoch: the append, the threshold check
     * and the rescue of IOError and EPIPE.
     */
    method Append(s: string) returns (r: WriteOutcome)
      requires Valid() && http != null && !http.closedLock
      modifies Repr
      ensures Valid() && http == old(http) && http.wr.fault == old(http.wr.fault)
      ensures unchanged(Repr - Current())
      ensures r.Recovered? <==> old(http.wr.fault).Some?
      ensures r.Recovered? ==>
        && r.reason == RescueReason(old(http.wr.fault).value)
        && http.closedLock && http.wr.closeCalls == [r.reason]
        && http.writes == old(http.writes) && http.wr.data == old(http.wr.data)
      ensures r.Written? ==>
        && http.writes == old(http.writes) + [s]
        && http.wr.data == metadata + Concat(http.writes)
        && (r.flushed <==> |metadata| + TotalLength(http.writes) >= config.apiRequestSize)
        && (http.closedLock <==> r.flushed)
        && (r.flushed ==> http.wr.closeCalls == [ApiRequestSize])
      ensures r != Disabled
    {
      var w := http.Write(s);
      assert Valid();
      match w {
        case Ok(n) =>
          if n >= config.apiRequestSize {
            Flush(ApiRequestSize);
            r := Written(true);
          } else {
            r := Written(false);
          }
        case Err(e) =>
          var reason := RescueReason(e);
          Flush(reason);
          r := Recovered(reason);
      }
    }

    /** The delay of the pending close task elapses: the task runs `flush(:timeout)`. */
    method FireTimer() returns (fired: bool)
      requires Valid()
      modifies this, Repr
      ensures Valid() && http == old(http) && epochs == old(epochs) && Repr == old(Repr)
      ensures fired <==> old(closeTask).Some? && old(closeTask).value.Pending?
      ensures fired ==> closeTask == Some(Fired) && http != null && http.closedLock
      ensures fired && !old(http.closedLock) ==> http.wr.closeCalls == [Timeout]
      ensures fired && old(http.closedLock) ==> unchanged(Repr)
      ensures fired ==> http.wr.fault == old(http.wr.fault)
      ensures fired ==>
        && unchanged(Repr - {http, http.wr})
        && http.writes == old(http.writes) && http.wr.data == old(http.wr.data)
      ensures retired == old(retired)
      ensures !fired ==> unchanged(this) && unchanged(Repr)
    {
      if closeTask.Some? && closeTask.value.Pending? {
        closeTask := Some(Fired);
        Flush(Timeout);
        fired := true;
      } else {
        fired := false;
      }
    }

    /** Environment step: the consumer of the current epoch fails, so its next append raises `e`. */
    method ConsumerFails(e: WriteError)
      requires Valid()
      modifies Repr
      ensures Valid()
      ensures http != null ==> http.wr.fault == Some(e) && http.closedLock == old(http.closedLock)
      ensures http != null ==> unchanged(Repr - {http.wr})
      ensures http != null ==>
        http.wr.closeCalls == old(http.wr.closeCalls) && http.wr.data == old(http.wr.data)
      ensures http == null ==> unchanged(Repr)
    {
      if http != null {
        http.wr.Fail(e);
      }
    }
  }
}
