/** The request side shared by both job-listing sources: the query-parameter
    dictionary that the fetch loops update in place, and the listing API,
    which stands in for the HTTP GET and the decoding of its JSON body. */
module Query {

  /** The two entries of the shared query-parameter dictionary that the core
      writes: the specialization keyword (`'text'` for HeadHunter,
      `'keyword'` for SuperJob) and the zero-based `'page'` index. The other
      entries stay fixed for the whole run and are not modelled. */
  class Payload {
    var keyword: string
    var page: nat

    constructor (keyword: string, page: nat)
      ensures this.keyword == keyword && this.page == page
    {
      this.keyword := keyword;
      this.page := page;
    }
  }

  /** One page request, as the server sees it. */
  datatype Request = Request(keyword: string, page: nat)

  /** The requests for pages 0, 1, ..., n - 1 of one keyword, in order. */
  function PageRequests(keyword: string, n: nat): seq<Request>
  {
    if n == 0 then [] else PageRequests(keyword, n - 1) + [Request(keyword, n - 1)]
  }

  /** The request at position `i` asks for page `i`. */
  lemma {:induction false} PageRequestsAt(keyword: string, n: nat)
    ensures |PageRequests(keyword, n)| == n
    ensures forall i :: 0 <= i < n ==> PageRequests(keyword, n)[i] == Request(keyword, i)
  {
    if n > 0 {
      PageRequestsAt(keyword, n - 1);
    }
  }

  /** Regrouping a log built by appending the requests of successive
      fetches. */
  lemma AppendAssoc(a: seq<Request>, b: seq<Request>, c: seq<Request>)
    ensures a + b + c == a + (b + c)
  {
  }

  /** A listing API whose decoded page responses are fixed in advance:
      `responses(k)[i]` is what a request for keyword `k` and page `i`
      returns. `log` records every request issued, in order. */
  class Api<P> {
    const responses: string -> seq<P>
    ghost var log: seq<Request>

    constructor (responses: string -> seq<P>)
      ensures this.responses == responses && log == []
    {
      this.responses := responses;
      log := [];
    }

    /** Request the page the payload names and return its decoded body. */
    method Get(payload: Payload) returns (page: P)
      requires payload.page < |responses(payload.keyword)|
      modifies this
      ensures page == responses(payload.keyword)[payload.page]
      ensures log == old(log) + [Request(payload.keyword, payload.page)]
    {
      page := responses(payload.keyword)[payload.page];
      log := log + [Request(payload.keyword, payload.page)];
    }
  }
}
