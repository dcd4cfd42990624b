/**
 * The parts of net/http the core touches: a header map, the request fields the
 * coverage engine reads, and a client-side response writer. The client writer
 * is not part of the repository; it is the primary sink of the duplicating
 * writer, and its field `failure` is an oracle saying whether the connection
 * to the client refuses bytes.
 */
module Http {
  import opened Wrappers

  /** http.Header: each key maps to its list of values. */
  type Header = map<string, seq<string>>

  /** base with every key of local that is no longer pending set to its local value. */
  ghost function PartlyMerged(base: Header, local: Header, pending: set<string>): Header
  {
    map k | k in base.Keys + (local.Keys - pending) :: if k in local && k !in pending then local[k] else base[k]
  }

  /** Nothing merged yet leaves base alone; nothing pending leaves base + local. */
  lemma PartlyMergedEnds(base: Header, local: Header)
    ensures PartlyMerged(base, local, local.Keys) == base
    ensures PartlyMerged(base, local, {}) == base + local
  {
  }

  /** Merging one more pending key. */
  lemma PartlyMergedStep(base: Header, local: Header, pending: set<string>, k: string)
    requires k in pending && k in local
    ensures PartlyMerged(base, local, pending)[k := local[k]] == PartlyMerged(base, local, pending - {k})
  {
  }

  /** The cloned request a recorder keeps: method, URL path and parsed query. */
  datatype Request = Request(httpMethod: string, path: string, query: map<string, seq<string>>)

  /** A failing client connection accepts at most `accepted` bytes of a write, then reports `reason`. */
  datatype WriteFailure = WriteFailure(accepted: nat, reason: string)

  const StatusOK: int := 200

  function Min(a: nat, b: nat): nat { if a <= b then a else b }

  /** The real client connection behind the proxy. */
  class ClientSink {
    var headers: Header
    var statusLog: seq<int>
    var body: seq<bv8>
    var failure: Option<WriteFailure>

    constructor (failure: Option<WriteFailure>)
      ensures headers == map[] && statusLog == [] && body == [] && this.failure == failure
    {
      headers := map[];
      statusLog := [];
      body := [];
      this.failure := failure;
    }

    function Header(): Header
      reads this
    {
      headers
    }

    /** Every status sent to the client is logged, so callers can be checked to send one. */
    method WriteHeader(statusCode: int)
      modifies this`statusLog
      ensures statusLog == old(statusLog) + [statusCode]
    {
      statusLog := statusLog + [statusCode];
    }

    method Write(data: seq<bv8>) returns (n: nat, err: Option<string>)
      modifies this`body
      ensures failure.None? ==> n == |data| && err == None
      ensures failure.Some? ==> n == Min(failure.value.accepted, |data|) && err == Some(failure.value.reason)
      ensures n <= |data| && body == old(body) + data[..n]
    {
      if failure.None? {
        n, err := |data|, None;
      } else {
        n, err := Min(failure.value.accepted, |data|), Some(failure.value.reason);
      }
      body := body + data[..n];
    }
  }
}
