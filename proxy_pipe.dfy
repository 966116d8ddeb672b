/**
 * The producer end of the pipe whose consumer end is the HTTP request body.
 * Only its interface is modelled: append, a running count of appended bytes,
 * close with a reason, and the errors an append raises.
 */
module ProxyPipe {
  import opened Wrappers

  /** The reasons a request is closed for (Ruby symbols). */
  datatype CloseReason = Force | ApiRequestSize | IoError | BrokenPipe | Timeout

  /** The exceptions an append raises: `IOError` and `Errno::EPIPE`. */
  datatype WriteError = IOError | EPIPE

  class Writer {
    const compress: bool
    /** everything appended so far, before compression */
    var data: string
    var bytesSent: nat
    var closed: bool
    /** set when the consumer side has failed; the next append raises it */
    var fault: Option<WriteError>
    /** every close call received, in order */
    ghost var closeCalls: seq<CloseReason>

    ghost predicate Valid()
      reads this
    {
      bytesSent == |data| && (closed <==> closeCalls != [])
    }

    constructor (compress: bool)
      ensures Valid() && this.compress == compress
      ensures data == [] && !closed && fault == None && closeCalls == []
    {
      this.compress := compress;
      data := [];
      bytesSent := 0;
      closed := false;
      fault := None;
      closeCalls := [];
    }

    /** Appends `s`; after close this raises IOError, after a consumer failure that failure. */
    method Write(s: string) returns (e: Option<WriteError>)
      requires Valid()
      modifies this
      ensures Valid()
      ensures closed == old(closed) && fault == old(fault)
      ensures closeCalls == old(closeCalls)
      ensures old(closed) ==> e == Some(IOError)
      ensures !old(closed) ==> e == old(fault)
      ensures e.None? ==> data == old(data) + s && bytesSent == old(bytesSent) + |s|
      ensures e.Some? ==> data == old(data) && bytesSent == old(bytesSent)
    {
      if closed {
        e := Some(IOError);
      } else if fault.Some? {
        e := fault;
      } else {
        data := data + s;
        bytesSent := bytesSent + |s|;
        e := None;
      }
    }

    /** Closes the producer side; further calls are recorded but change nothing else. */
    method Close(reason: CloseReason)
      requires Valid()
      modifies this
      ensures Valid() && closed
      ensures closeCalls == old(closeCalls) + [reason]
      ensures data == old(data) && bytesSent == old(bytesSent) && fault == old(fault)
    {
      closed := true;
      closeCalls := closeCalls + [reason];
    }

    /** Environment step: the consumer side fails, so appends raise `e` from now on. */
    method Fail(e: WriteError)
      requires Valid()
      modifies this
      ensures Valid() && fault == Some(e)
      ensures data == old(data) && bytesSent == old(bytesSent) && closed == old(closed)
      ensures closeCalls == old(closeCalls)
    {
      fault := Some(e);
    }
  }
}
