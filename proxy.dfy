/**
 * The duplicating response path of package proxy: a recorder that keeps the
 * status, headers and body of one response in memory, a writer that fans
 * every write out to the client (primary) and the recorder (secondary), and
 * the hand-off of finished recorders to the analysis worker.
 */
module Proxy {
  import opened Wrappers
  import opened Http

  /** The status a recorder holds after WriteHeader(code): it is set only while it is still 0. */
  function Latch(current: int, code: int): int
  {
    if current != 0 then current else code
  }

  /** The status after a series of WriteHeader calls, starting from `current`. */
  function LatchAll(current: int, codes: seq<int>): int
    decreases |codes|
  {
    if codes == [] then current else LatchAll(Latch(current, codes[0]), codes[1..])
  }

  function FirstNonZero(codes: seq<int>): int
  {
    if codes == [] then 0 else if codes[0] != 0 then codes[0] else FirstNonZero(codes[1..])
  }

  /** On a fresh recorder the first non-zero status wins, whatever comes after it. */
  lemma {:induction false} FirstNonZeroWins(codes: seq<int>)
    ensures LatchAll(0, codes) == FirstNonZero(codes)
  {
    if codes != [] {
      if codes[0] != 0 {
        OnceSetStaysSet(codes[0], codes[1..]);
      } else {
        FirstNonZeroWins(codes[1..]);
      }
    }
  }

  /** Once a non-zero status is held, later WriteHeader calls change nothing. */
  lemma {:induction false} OnceSetStaysSet(current: int, codes: seq<int>)
    requires current != 0
    ensures LatchAll(current, codes) == current
  {
    if codes != [] {
      OnceSetStaysSet(current, codes[1..]);
    }
  }

  /** ResponseWriterRecorder: the terminal observer of one response. */
  class ResponseWriterRecorder {
    const req: Request
    var statusCode: int
    var headers: Header
    var data: seq<bv8>

    /** NewResponseWriterRecorder: status 0, no headers, an empty buffer; the channel argument is unused. */
    constructor (req: Request)
      ensures this.req == req && statusCode == 0 && headers == map[] && data == []
    {
      this.req := req;
      statusCode := 0;
      headers := map[];
      data := [];
    }

    function Header(): Header
      reads this
    {
      headers
    }

    /**
     * Write implies WriteHeader(200), appends to the buffer (a nil buffer is
     * replaced by one holding the data, which has the same contents) and
     * never fails.
     */
    method Write(d: seq<bv8>) returns (n: nat, err: Option<string>)
      modifies this`statusCode, this`data
      ensures statusCode == Latch(old(statusCode), StatusOK)
      ensures data == old(data) + d
      ensures n == |d| && err == None
    {
      WriteHeader(StatusOK);
      data := data + d;
      n, err := |d|, None;
    }

    method WriteHeader(code: int)
      modifies this`statusCode
      ensures statusCode == Latch(old(statusCode), code)
    {
      if statusCode != 0 {
        return;
      }
      statusCode := code;
    }
  }

  /**
   * DupResponseWriter: headers are buffered locally and copied into both
   * sinks once, on the first WriteHeader; the secondary's write result is
   * deliberately ignored so that the recorder can never fail the client.
   */
  class DupResponseWriter {
    var headers: Header
    const arw: ClientSink
    const brw: ResponseWriterRecorder
    var writeHeaderCalled: bool

    constructor (arw: ClientSink, brw: ResponseWriterRecorder)
      ensures this.arw == arw && this.brw == brw
      ensures headers == map[] && !writeHeaderCalled
    {
      headers := map[];
      this.arw := arw;
      this.brw := brw;
      writeHeaderCalled := false;
    }

    function Header(): Header
      reads this
    {
      headers
    }

    method Write(data: seq<bv8>) returns (n: nat, err: Option<string>)
      modifies this`writeHeaderCalled, arw`headers, arw`statusLog, arw`body, brw`headers, brw`statusCode, brw`data
      ensures writeHeaderCalled
      ensures var flushed := !old(writeHeaderCalled);
        && arw.headers == (if flushed then old(arw.headers) + headers else old(arw.headers))
        && brw.headers == (if flushed then old(brw.headers) + headers else old(brw.headers))
        && arw.statusLog == old(arw.statusLog) + (if flushed then [StatusOK] else [])
      // the caller gets the primary's result
      ensures arw.failure.None? ==> n == |data| && err == None
      ensures arw.failure.Some? ==> n == Min(arw.failure.value.accepted, |data|) && err == Some(arw.failure.value.reason)
      ensures arw.body == old(arw.body) + data[..n]
      // the secondary receives the bytes only if the primary took them without error
      ensures var status := if old(writeHeaderCalled) then old(brw.statusCode) else Latch(old(brw.statusCode), StatusOK);
        if err.Some? then brw.data == old(brw.data) && brw.statusCode == status
        else brw.data == old(brw.data) + data && brw.statusCode == Latch(status, StatusOK)
    {
      WriteHeader(StatusOK);
      n, err := arw.Write(data);
      if err.None? {
        var _, _ := brw.Write(data);
      }
    }

    /** Only the first call forwards: headers into both sinks, then the status to the primary and the secondary. */
    method WriteHeader(statusCode: int)
      modifies this`writeHeaderCalled, arw`headers, arw`statusLog, brw`headers, brw`statusCode
      ensures writeHeaderCalled
      ensures old(writeHeaderCalled) ==>
        && arw.headers == old(arw.headers) && arw.statusLog == old(arw.statusLog)
        && brw.headers == old(brw.headers) && brw.statusCode == old(brw.statusCode)
      ensures !old(writeHeaderCalled) ==>
        && arw.headers == old(arw.headers) + headers && arw.statusLog == old(arw.statusLog) + [statusCode]
        && brw.headers == old(brw.headers) + headers && brw.statusCode == Latch(old(brw.statusCode), statusCode)
    {
      if writeHeaderCalled {
        return;
      }
      writeHeaderCalled := true;
      SetHeaders();
      arw.WriteHeader(statusCode);
      brw.WriteHeader(statusCode);
    }

    /** Sets every local header key in both sinks to its own copy of the value list. */
    method SetHeaders()
      modifies arw`headers, brw`headers
      ensures arw.headers == old(arw.headers) + headers
      ensures brw.headers == old(brw.headers) + headers
    {
      var pending := headers.Keys;
      PartlyMergedEnds(arw.headers, headers);
      PartlyMergedEnds(brw.headers, headers);
      while pending != {}
        invariant pending <= headers.Keys
        invariant arw.headers == PartlyMerged(old(arw.headers), headers, pending)
        invariant brw.headers == PartlyMerged(old(brw.headers), headers, pending)
      {
        var k :| k in pending;
        PartlyMergedStep(old(arw.headers), headers, pending, k);
        PartlyMergedStep(old(brw.headers), headers, pending, k);
        var s := headers[k];
        var acs: seq<string> := [];
        var bcs: seq<string> := [];
        for i := 0 to |s|
          invariant acs == s[..i] && bcs == s[..i]
        {
          acs := acs + [s[i]];
          bcs := bcs + [s[i]];
        }
        assert s[..|s|] == s;
        arw.headers := arw.headers[k := acs];
        brw.headers := brw.headers[k := bcs];
        pending := pending - {k};
      }
    }

    /** One call of the forwarding handler on this writer, with its effect on both sinks. */
    method Apply(c: WriterCall)
      modifies this`headers, this`writeHeaderCalled, arw`headers, arw`statusLog, arw`body, brw`headers, brw`statusCode, brw`data
      ensures writeHeaderCalled == (old(writeHeaderCalled) || Flushes(c))
      ensures headers == if c.SetHeader? then old(headers)[c.key := c.values] else old(headers)
      ensures var flush := !old(writeHeaderCalled) && Flushes(c);
        && arw.headers == (if flush then old(arw.headers) + old(headers) else old(arw.headers))
        && brw.headers == (if flush then old(brw.headers) + old(headers) else old(brw.headers))
        && arw.statusLog == old(arw.statusLog) + (if flush then [StepCode(c)] else [])
        && brw.statusCode == Latch(if flush then Latch(old(brw.statusCode), StepCode(c)) else old(brw.statusCode),
                                   if c.CallWrite? && arw.failure.None? then StatusOK else 0)
      ensures arw.failure.None? ==>
        && arw.body == old(arw.body) + (if c.CallWrite? then c.data else [])
        && brw.data == old(brw.data) + (if c.CallWrite? then c.data else [])
      ensures arw.failure.Some? ==> brw.data == old(brw.data)
      ensures arw.body == old(arw.body) + Taken(c, arw.failure)
    {
      match c
      case SetHeader(k, vs) =>
        headers := headers[k := vs];
      case CallWriteHeader(code) =>
        WriteHeader(code);
      case CallWrite(data) =>
        var _, _ := Write(data);
    }
  }

  // ---------------------------------------------------------------------------
  // Serving one request and handing its recording off

  /** One call the forwarding handler makes on the writer it is given. */
  datatype WriterCall =
    | SetHeader(key: string, values: seq<string>)
    | CallWriteHeader(code: int)
    | CallWrite(data: seq<bv8>)

  predicate Flushes(c: WriterCall)
  {
    c.CallWriteHeader? || c.CallWrite?
  }

  /** The header map the handler has built before its first WriteHeader or Write. */
  function HeadersAtFlush(calls: seq<WriterCall>, local: Header): Header
  {
    if calls == [] then local
    else if Flushes(calls[0]) then local
    else HeadersAtFlush(calls[1..], local[calls[0].key := calls[0].values])
  }

  function Flushed(calls: seq<WriterCall>): bool
  {
    exists i :: 0 <= i < |calls| && Flushes(calls[i])
  }

  /** The status a flushing call sends: its own code for WriteHeader, 200 for Write, none (0) otherwise. */
  function StepCode(c: WriterCall): int
  {
    match c
    case SetHeader(_, _) => 0
    case CallWriteHeader(code) => code
    case CallWrite(_) => StatusOK
  }

  /** The status of the first flushing call, which is the one the client receives; 0 when none flushes. */
  function FlushCode(calls: seq<WriterCall>): int
  {
    if calls == [] then 0 else if Flushes(calls[0]) then StepCode(calls[0]) else FlushCode(calls[1..])
  }

  /** Appending one call: the first flush is kept once there is one. */
  lemma {:induction false} FlushAppend(calls: seq<WriterCall>, c: WriterCall)
    ensures Flushed(calls + [c]) == (Flushed(calls) || Flushes(c))
    ensures !Flushed(calls) ==> FlushCode(calls) == 0
    ensures FlushCode(calls + [c]) == if Flushed(calls) then FlushCode(calls) else StepCode(c)
  {
    var s := calls + [c];
    assert forall i :: 0 <= i < |calls| ==> s[i] == calls[i];
    assert s[|calls|] == c;
    if calls != [] {
      assert s[1..] == calls[1..] + [c];
      FlushAppend(calls[1..], c);
      assert Flushed(calls) == (Flushes(calls[0]) || Flushed(calls[1..])) by {
        assert forall i :: 1 <= i < |calls| ==> calls[i] == calls[1..][i - 1];
        if Flushed(calls[1..]) {
          var i :| 0 <= i < |calls[1..]| && Flushes(calls[1..][i]);
          assert Flushes(calls[i + 1]);
        }
      }
    }
  }

  /** The bytes of every Write, in order. */
  function Body(calls: seq<WriterCall>): seq<bv8>
  {
    if calls == [] then [] else (if calls[0].CallWrite? then calls[0].data else []) + Body(calls[1..])
  }

  /** The bytes the client connection takes from one call: all of a Write, or its allowance when failing. */
  function Taken(c: WriterCall, failure: Option<WriteFailure>): seq<bv8>
  {
    if !c.CallWrite? then []
    else if failure.None? then c.data
    else c.data[..Min(failure.value.accepted, |c.data|)]
  }

  /**
   * The client connection's outcome is one entry per call: `failures[i]` is
   * the failure, if any, that the i-th call meets.
   */
  type Outcomes = seq<Option<WriteFailure>>

  /** The bytes the client connection takes from every call, in order. */
  function ClientBody(calls: seq<WriterCall>, failures: Outcomes): seq<bv8>
    requires |failures| == |calls|
  {
    if calls == [] then [] else Taken(calls[0], failures[0]) + ClientBody(calls[1..], failures[1..])
  }

  /** The bytes the recorder gets: the data of every Write the client took without error. */
  function RecorderBody(calls: seq<WriterCall>, failures: Outcomes): seq<bv8>
    requires |failures| == |calls|
  {
    if calls == [] then []
    else (if calls[0].CallWrite? && failures[0].None? then calls[0].data else []) + RecorderBody(calls[1..], failures[1..])
  }

  /** Some Write reached a healthy client, which latches 200 on the recorder. */
  predicate Delivered(calls: seq<WriterCall>, failures: Outcomes)
    requires |failures| == |calls|
  {
    exists i :: 0 <= i < |calls| && calls[i].CallWrite? && failures[i].None?
  }

  /** The client takes every call without error. */
  predicate Healthy(failures: Outcomes)
  {
    forall i :: 0 <= i < |failures| ==> failures[i].None?
  }

  /** The client takes the first k calls without error and fails on every later one. */
  predicate FailsFrom(failures: Outcomes, k: nat)
  {
    forall i :: 0 <= i < |failures| ==> (failures[i].None? <==> i < k)
  }

  /**
   * ParallelHandler, reduced to its sequential part: the channel is nil until
   * LaunchParallelProc runs, and then holds the recorders not yet consumed.
   */
  class ParallelHandler {
    var parallelProc: Option<seq<ResponseWriterRecorder>>

    constructor ()
      ensures parallelProc == None
    {
      parallelProc := None;
    }

    /** Starting twice is a no-op: there is never a second consumer. */
    method LaunchParallelProc()
      modifies this
      ensures old(parallelProc).Some? ==> parallelProc == old(parallelProc)
      ensures old(parallelProc).None? ==> parallelProc == Some([])
    {
      if parallelProc.Some? {
        return;
      }
      parallelProc := Some([]);
    }

    /**
     * ServeHTTP: the handler's calls go through a DupResponseWriter over the
     * client and a fresh recorder; the recorder is queued only if launched.
     * The client meets `failures[i]` on the i-th call.
     */
    method ServeHTTP(rw: ClientSink, req: Request, calls: seq<WriterCall>, failures: Outcomes) returns (rec: ResponseWriterRecorder)
      requires |failures| == |calls|
      modifies this, rw`headers, rw`statusLog, rw`body, rw`failure
      ensures fresh(rec) && rec.req == req
      ensures parallelProc == if old(parallelProc).None? then None else Some(old(parallelProc).value + [rec])
      ensures Flushed(calls) ==> rec.headers == HeadersAtFlush(calls, map[]) && rw.headers == old(rw.headers) + HeadersAtFlush(calls, map[])
      ensures !Flushed(calls) ==> rec.headers == map[] && rw.headers == old(rw.headers)
      ensures rec.data == RecorderBody(calls, failures)
      ensures rw.body == old(rw.body) + ClientBody(calls, failures)
      ensures Healthy(failures) ==> rec.data == Body(calls) && rw.body == old(rw.body) + Body(calls)
      ensures forall k: nat :: k <= |calls| && FailsFrom(failures, k) ==> rec.data == Body(calls[..k])
      ensures rw.statusLog == old(rw.statusLog) + (if Flushed(calls) then [FlushCode(calls)] else [])
      ensures rec.statusCode == Latch(FlushCode(calls), if Delivered(calls, failures) then StatusOK else 0)
      ensures rw.failure == if calls == [] then old(rw.failure) else failures[|calls| - 1]
    {
      rec := new ResponseWriterRecorder(req);
      var dup := new DupResponseWriter(rw, rec);
      Serve(dup, calls, failures);
      if Healthy(failures) {
        ClientBodyHealthy(calls, failures);
        RecorderBodyHealthy(calls, failures);
      }
      forall k: nat | k <= |calls| && FailsFrom(failures, k)
        ensures rec.data == Body(calls[..k])
      {
        RecorderBodyFailsFrom(calls, failures, k);
      }
      if parallelProc.Some? {
        parallelProc := Some(parallelProc.value + [rec]);
      }
    }
  }

  /**
   * The forwarding handler's calls, one after the other, on a fresh
   * duplicating writer over the client and a fresh recorder; the client
   * meets `failures[i]` on the i-th call.
   */
  method Serve(dup: DupResponseWriter, calls: seq<WriterCall>, failures: Outcomes)
    requires |failures| == |calls|
    requires !dup.writeHeaderCalled && dup.headers == map[]
    requires dup.brw.statusCode == 0 && dup.brw.headers == map[] && dup.brw.data == []
    modifies dup`headers, dup`writeHeaderCalled, dup.arw`headers, dup.arw`statusLog, dup.arw`body, dup.arw`failure
    modifies dup.brw`headers, dup.brw`statusCode, dup.brw`data
    ensures var rw, rec := dup.arw, dup.brw;
      && (Flushed(calls) ==> rec.headers == HeadersAtFlush(calls, map[]) && rw.headers == old(rw.headers) + HeadersAtFlush(calls, map[]))
      && (!Flushed(calls) ==> rec.headers == map[] && rw.headers == old(rw.headers))
      && rec.data == RecorderBody(calls, failures)
      && rw.body == old(rw.body) + ClientBody(calls, failures)
      && rw.statusLog == old(rw.statusLog) + (if Flushed(calls) then [FlushCode(calls)] else [])
      && rec.statusCode == Latch(FlushCode(calls), if Delivered(calls, failures) then StatusOK else 0)
      && rw.failure == if calls == [] then old(rw.failure) else failures[|calls| - 1]
  {
    var rw, rec := dup.arw, dup.brw;
    for i := 0 to |calls|
      invariant dup.writeHeaderCalled == Flushed(calls[..i])
      invariant !Flushed(calls[..i]) ==> HeadersAtFlush(calls, map[]) == HeadersAtFlush(calls[i..], dup.headers)
      invariant Flushed(calls[..i]) ==> rec.headers == HeadersAtFlush(calls, map[]) && rw.headers == old(rw.headers) + HeadersAtFlush(calls, map[])
      invariant !Flushed(calls[..i]) ==> rec.headers == map[] && rw.headers == old(rw.headers)
      invariant rec.data == RecorderBody(calls[..i], failures[..i])
      invariant rw.body == old(rw.body) + ClientBody(calls[..i], failures[..i])
      invariant rw.statusLog == old(rw.statusLog) + (if Flushed(calls[..i]) then [FlushCode(calls[..i])] else [])
      invariant rec.statusCode == Latch(FlushCode(calls[..i]), if Delivered(calls[..i], failures[..i]) then StatusOK else 0)
      invariant rw.failure == if i == 0 then old(rw.failure) else failures[i - 1]
    {
      ServeStep(calls, failures, i);
      AppendAssoc(old(rw.body), ClientBody(calls[..i], failures[..i]), Taken(calls[i], failures[i]));
      rw.failure := failures[i];
      dup.Apply(calls[i]);
    }
    assert calls[..|calls|] == calls;
    assert failures[..|failures|] == failures;
  }

  /** What one more call adds to each specification of Serve's state. */
  lemma ServeStep(calls: seq<WriterCall>, failures: Outcomes, i: nat)
    requires |failures| == |calls| && i < |calls|
    ensures Flushed(calls[..i + 1]) == (Flushed(calls[..i]) || Flushes(calls[i]))
    ensures !Flushed(calls[..i]) ==> FlushCode(calls[..i]) == 0
    ensures FlushCode(calls[..i + 1]) == if Flushed(calls[..i]) then FlushCode(calls[..i]) else StepCode(calls[i])
    ensures RecorderBody(calls[..i + 1], failures[..i + 1])
      == RecorderBody(calls[..i], failures[..i]) + (if calls[i].CallWrite? && failures[i].None? then calls[i].data else [])
    ensures ClientBody(calls[..i + 1], failures[..i + 1]) == ClientBody(calls[..i], failures[..i]) + Taken(calls[i], failures[i])
    ensures Delivered(calls[..i + 1], failures[..i + 1])
      == (Delivered(calls[..i], failures[..i]) || (calls[i].CallWrite? && failures[i].None?))
  {
    assert calls[..i + 1] == calls[..i] + [calls[i]];
    assert failures[..i + 1] == failures[..i] + [failures[i]];
    FlushAppend(calls[..i], calls[i]);
    RecorderBodyAppend(calls[..i], failures[..i], calls[i], failures[i]);
    ClientBodyAppend(calls[..i], failures[..i], calls[i], failures[i]);
    DeliveredAppend(calls[..i], failures[..i], calls[i], failures[i]);
  }

  lemma AppendAssoc(a: seq<bv8>, b: seq<bv8>, c: seq<bv8>)
    ensures a + b + c == a + (b + c)
  {
  }

  lemma {:induction false} ClientBodyAppend(calls: seq<WriterCall>, failures: Outcomes, c: WriterCall, f: Option<WriteFailure>)
    requires |failures| == |calls|
    ensures ClientBody(calls + [c], failures + [f]) == ClientBody(calls, failures) + Taken(c, f)
  {
    if calls != [] {
      assert (calls + [c])[1..] == calls[1..] + [c];
      assert (failures + [f])[1..] == failures[1..] + [f];
      ClientBodyAppend(calls[1..], failures[1..], c, f);
    }
  }

  lemma {:induction false} RecorderBodyAppend(calls: seq<WriterCall>, failures: Outcomes, c: WriterCall, f: Option<WriteFailure>)
    requires |failures| == |calls|
    ensures RecorderBody(calls + [c], failures + [f]) == RecorderBody(calls, failures) + (if c.CallWrite? && f.None? then c.data else [])
  {
    if calls != [] {
      assert (calls + [c])[1..] == calls[1..] + [c];
      assert (failures + [f])[1..] == failures[1..] + [f];
      RecorderBodyAppend(calls[1..], failures[1..], c, f);
    }
  }

  lemma DeliveredAppend(calls: seq<WriterCall>, failures: Outcomes, c: WriterCall, f: Option<WriteFailure>)
    requires |failures| == |calls|
    ensures Delivered(calls + [c], failures + [f]) == (Delivered(calls, failures) || (c.CallWrite? && f.None?))
  {
    var s, t := calls + [c], failures + [f];
    assert forall i :: 0 <= i < |calls| ==> s[i] == calls[i] && t[i] == failures[i];
    assert s[|calls|] == c && t[|calls|] == f;
  }

  /** A client that never fails takes the whole body the handler writes. */
  lemma {:induction false} ClientBodyHealthy(calls: seq<WriterCall>, failures: Outcomes)
    requires |failures| == |calls| && Healthy(failures)
    ensures ClientBody(calls, failures) == Body(calls)
  {
    if calls != [] {
      assert failures[0].None?;
      assert Healthy(failures[1..]) by {
        assert forall i :: 0 <= i < |failures[1..]| ==> failures[1..][i] == failures[i + 1];
      }
      ClientBodyHealthy(calls[1..], failures[1..]);
    }
  }

  /** With a client that never fails, the recorder gets the whole body too. */
  lemma {:induction false} RecorderBodyHealthy(calls: seq<WriterCall>, failures: Outcomes)
    requires |failures| == |calls| && Healthy(failures)
    ensures RecorderBody(calls, failures) == Body(calls)
  {
    if calls != [] {
      assert failures[0].None?;
      assert Healthy(failures[1..]) by {
        assert forall i :: 0 <= i < |failures[1..]| ==> failures[1..][i] == failures[i + 1];
      }
      RecorderBodyHealthy(calls[1..], failures[1..]);
    }
  }

  /**
   * A client that goes away after k calls: the recorder keeps the Writes
   * among those k calls and nothing after them.
   */
  lemma {:induction false} RecorderBodyFailsFrom(calls: seq<WriterCall>, failures: Outcomes, k: nat)
    requires |failures| == |calls| && k <= |calls| && FailsFrom(failures, k)
    ensures RecorderBody(calls, failures) == Body(calls[..k])
  {
    if calls != [] {
      var k' := if k == 0 then 0 else k - 1;
      assert FailsFrom(failures[1..], k') by {
        assert forall i :: 0 <= i < |failures[1..]| ==> failures[1..][i] == failures[i + 1];
      }
      RecorderBodyFailsFrom(calls[1..], failures[1..], k');
      if k == 0 {
        assert failures[0].Some?;
        assert calls[1..][..k'] == calls[..k] == [];
      } else {
        assert failures[0].None?;
        assert calls[..k][1..] == calls[1..][..k'];
      }
    }
  }

  lemma {:induction false} BodyAppend(calls: seq<WriterCall>, c: WriterCall)
    ensures Body(calls + [c]) == Body(calls) + (if c.CallWrite? then c.data else [])
  {
    if calls != [] {
      assert (calls + [c])[1..] == calls[1..] + [c];
      BodyAppend(calls[1..], c);
    }
  }
}
