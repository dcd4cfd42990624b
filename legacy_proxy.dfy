/**
 * The older copies of the duplicating writer and the recorder kept in the
 * command package. The writer is the same as package proxy's; the recorder
 * differs: each Write replaces the recorded data with a copy of the chunk and
 * hands the recorder to the analysis channel.
 */
module LegacyProxy {
  import opened Wrappers
  import opened Http
  import Proxy

  /** The channel recorders are sent on, seen as the sequence of sends so far. */
  class RecorderChannel {
    var sent: seq<ResponseWriterRecorder>

    constructor ()
      ensures sent == []
    {
      sent := [];
    }
  }

  class ResponseWriterRecorder {
    var statusCode: int
    var headers: Header
    var data: seq<bv8>
    const req: Request
    const onWriteChan: RecorderChannel

    constructor (req: Request, onWriteChan: RecorderChannel)
      ensures statusCode == 0 && headers == map[] && data == []
      ensures this.req == req && this.onWriteChan == onWriteChan
    {
      statusCode := 0;
      headers := map[];
      data := [];
      this.req := req;
      this.onWriteChan := onWriteChan;
    }

    function Header(): Header
      reads this
    {
      headers
    }

    /** Keeps only the latest chunk and hands the recorder off once per call. */
    method Write(d: seq<bv8>) returns (n: nat, err: Option<string>)
      modifies this`statusCode, this`data, onWriteChan
      ensures statusCode == Proxy.Latch(old(statusCode), StatusOK)
      ensures data == d
      ensures onWriteChan.sent == old(onWriteChan.sent) + [this]
      ensures n == |d| && err == None
    {
      WriteHeader(StatusOK);
      var copied := new bv8[|d|];
      forall i | 0 <= i < |d| {
        copied[i] := d[i];
      }
      data := copied[..];
      onWriteChan.sent := onWriteChan.sent + [this];
      n, err := |d|, None;
    }

    method WriteHeader(code: int)
      modifies this`statusCode
      ensures statusCode == Proxy.Latch(old(statusCode), code)
    {
      if statusCode != 0 {
        return;
      }
      statusCode := code;
    }
  }

  /** n writes to a recorder produce n hand-offs, and the data is the last chunk. */
  method WriteAll(rec: ResponseWriterRecorder, chunks: seq<seq<bv8>>)
    modifies rec`statusCode, rec`data, rec.onWriteChan
    ensures |rec.onWriteChan.sent| == old(|rec.onWriteChan.sent|) + |chunks|
    ensures forall i :: old(|rec.onWriteChan.sent|) <= i < |rec.onWriteChan.sent| ==> rec.onWriteChan.sent[i] == rec
    ensures chunks != [] ==> rec.data == chunks[|chunks| - 1] && rec.statusCode == Proxy.Latch(old(rec.statusCode), StatusOK)
    ensures chunks == [] ==> rec.data == old(rec.data) && rec.statusCode == old(rec.statusCode)
  {
    for i := 0 to |chunks|
      invariant |rec.onWriteChan.sent| == old(|rec.onWriteChan.sent|) + i
      invariant forall j :: old(|rec.onWriteChan.sent|) <= j < |rec.onWriteChan.sent| ==> rec.onWriteChan.sent[j] == rec
      invariant i > 0 ==> rec.data == chunks[i - 1] && rec.statusCode == Proxy.Latch(old(rec.statusCode), StatusOK)
      invariant i == 0 ==> rec.data == old(rec.data) && rec.statusCode == old(rec.statusCode)
    {
      var _, _ := rec.Write(chunks[i]);
    }
  }

  /** The command package's DupResponseWriter, identical in behaviour to package proxy's. */
  class DupResponseWriter {
    var headers: Header
    const arw: ClientSink
    const brw: ResponseWriterRecorder
    var writeHeaderCalled: bool

    constructor (arw: ClientSink, brw: ResponseWriterRecorder)
      ensures this.arw == arw && this.brw == brw
      ensures headers == map[] && !writeHeaderCalled
    {
      headers := map[];
      this.arw := arw;
      this.brw := brw;
      writeHeaderCalled := false;
    }

    function Header(): Header
      reads this
    {
      headers
    }

    method Write(data: seq<bv8>) returns (n: nat, err: Option<string>)
      modifies this`writeHeaderCalled, arw`headers, arw`statusLog, arw`body
      modifies brw`headers, brw`statusCode, brw`data, brw.onWriteChan
      ensures writeHeaderCalled
      ensures var flushed := !old(writeHeaderCalled);
        && arw.headers == (if flushed then old(arw.headers) + headers else old(arw.headers))
        && brw.headers == (if flushed then old(brw.headers) + headers else old(brw.headers))
        && arw.statusLog == old(arw.statusLog) + (if flushed then [StatusOK] else [])
      ensures arw.failure.None? ==> n == |data| && err == None
      ensures arw.failure.Some? ==> n == Min(arw.failure.value.accepted, |data|) && err == Some(arw.failure.value.reason)
      ensures arw.body == old(arw.body) + data[..n]
      ensures var status := if old(writeHeaderCalled) then old(brw.statusCode) else Proxy.Latch(old(brw.statusCode), StatusOK);
        if err.Some? then
          brw.data == old(brw.data) && brw.statusCode == status && brw.onWriteChan.sent == old(brw.onWriteChan.sent)
        else
          brw.data == data && brw.statusCode == Proxy.Latch(status, StatusOK)
          && brw.onWriteChan.sent == old(brw.onWriteChan.sent) + [brw]
    {
      WriteHeader(StatusOK);
      n, err := arw.Write(data);
      if err.None? {
        var _, _ := brw.Write(data);
      }
    }

    method WriteHeader(statusCode: int)
      modifies this`writeHeaderCalled, arw`headers, arw`statusLog, brw`headers, brw`statusCode
      ensures writeHeaderCalled
      ensures old(writeHeaderCalled) ==>
        && arw.headers == old(arw.headers) && arw.statusLog == old(arw.statusLog)
        && brw.headers == old(brw.headers) && brw.statusCode == old(brw.statusCode)
      ensures !old(writeHeaderCalled) ==>
        && arw.headers == old(arw.headers) + headers && arw.statusLog == old(arw.statusLog) + [statusCode]
        && brw.headers == old(brw.headers) + headers && brw.statusCode == Proxy.Latch(old(brw.statusCode), statusCode)
    {
      if writeHeaderCalled {
        return;
      }
      writeHeaderCalled := true;
      SetHeaders();
      arw.WriteHeader(statusCode);
      brw.WriteHeader(statusCode);
    }

    method SetHeaders()
      modifies arw`headers, brw`headers
      ensures arw.headers == old(arw.headers) + headers
      ensures brw.headers == old(brw.headers) + headers
    {
      var pending := headers.Keys;
      PartlyMergedEnds(arw.headers, headers);
      PartlyMergedEnds(brw.headers, headers);
      while pending != {}
        invariant pending <= headers.Keys
        invariant arw.headers == PartlyMerged(old(arw.headers), headers, pending)
        invariant brw.headers == PartlyMerged(old(brw.headers), headers, pending)
      {
        var k :| k in pending;
        PartlyMergedStep(old(arw.headers), headers, pending, k);
        PartlyMergedStep(old(brw.headers), headers, pending, k);
        var s := headers[k];
        var acs: seq<string> := [];
        var bcs: seq<string> := [];
        for i := 0 to |s|
          invariant acs == s[..i] && bcs == s[..i]
        {
          acs := acs + [s[i]];
          bcs := bcs + [s[i]];
        }
        assert s[..|s|] == s;
        arw.headers := arw.headers[k := acs];
        brw.headers := brw.headers[k := bcs];
        pending := pending - {k};
      }
    }
  }
}
