/**
 * The two middlewares: secureHeaders, which sets five response headers and
 * then hands the request on, and logRequest, which logs it and hands it on.
 *
 * A middleware wraps a downstream handler `next`.  What `next` does is
 * abstract: given the request and the header map it finds on the response,
 * it sets some headers and makes some writes.  The writer records, as ghost
 * state, every invocation of a downstream handler together with the header
 * map that handler observed.
 */
module Middleware {
  import opened Http
  import opened Handlers

  /** Response headers, one value per key (`Header().Set` replaces all values). */
  type Header = map<string, string>

  datatype Request = Request(verb: string, path: string, proto: string, remoteAddr: string)

  /** The effect of a downstream handler on the response: the headers it sets, then what it writes. */
  datatype Effect = Effect(headerSets: Header, writes: seq<Write<Page>>)

  /** A downstream handler: what it does, given the request and the headers already set. */
  type Handler = (Request, Header) -> Effect

  const ContentSecurityPolicy := "default-src 'self'; style-src 'self' fonts.googleapis.com; font-src fonts.gstatic.com"
  const ReferrerPolicy := "origin-when-cross-origin"
  const ContentTypeOptions := "nosniff"
  const FrameOptions := "deny"
  const XssProtection := "0"

  const SecureHeaderKeys: set<string> :=
    {"Content-Security-Policy", "Referrer-Policy", "X-Content-Type-Options", "X-Frame-Options", "X-XSS-Protection"}

  /** The response as a handler sees it: its header map and what has been written. */
  class ResponseWriter {
    var header: Header
    var writes: seq<Write<Page>>
    ghost var served: seq<(Request, Header)>

    constructor ()
      ensures header == map[] && writes == [] && served == []
    {
      header, writes, served := map[], [], [];
    }

    /** `Header().Set(key, value)`: the key now holds exactly `value`. */
    method Set(key: string, value: string)
      modifies this
      ensures header == old(header)[key := value]
      ensures writes == old(writes) && served == old(served)
    {
      header := header[key := value];
    }

    /** `next.ServeHTTP(w, r)`: `next` runs once, on the headers set so far. */
    method Serve(next: Handler, r: Request)
      modifies this
      ensures served == old(served) + [(r, old(header))]
      ensures header == old(header) + next(r, old(header)).headerSets
      ensures writes == old(writes) + next(r, old(header)).writes
    {
      var effect := next(r, header);
      served := served + [(r, header)];
      header := header + effect.headerSets;
      writes := writes + effect.writes;
    }
  }

  /**
   * The header map after the five `Set` calls of secureHeaders: the five keys
   * hold their fixed values, every other key is as it was.
   */
  function WithSecureHeaders(h: Header): (r: Header)
    ensures r.Keys == h.Keys + SecureHeaderKeys
    ensures r["Content-Security-Policy"] == ContentSecurityPolicy
    ensures r["Referrer-Policy"] == ReferrerPolicy
    ensures r["X-Content-Type-Options"] == ContentTypeOptions
    ensures r["X-Frame-Options"] == FrameOptions
    ensures r["X-XSS-Protection"] == XssProtection
    ensures forall k :: k in h && k !in SecureHeaderKeys ==> r[k] == h[k]
  {
    h["Content-Security-Policy" := ContentSecurityPolicy]
     ["Referrer-Policy" := ReferrerPolicy]
     ["X-Content-Type-Options" := ContentTypeOptions]
     ["X-Frame-Options" := FrameOptions]
     ["X-XSS-Protection" := XssProtection]
  }

  /** Setting the headers a second time gives the same map as setting them once. */
  lemma WithSecureHeadersIdempotent(h: Header)
    ensures WithSecureHeaders(WithSecureHeaders(h)) == WithSecureHeaders(h)
  {
  }

  /** The result depends only on the keys secureHeaders does not set. */
  lemma WithSecureHeadersOverwrites(h: Header, g: Header)
    requires forall k :: k !in SecureHeaderKeys ==> (k in h <==> k in g)
    requires forall k :: k in h && k !in SecureHeaderKeys ==> h[k] == g[k]
    ensures WithSecureHeaders(h) == WithSecureHeaders(g)
  {
    var rh, rg := WithSecureHeaders(h), WithSecureHeaders(g);
    assert rh.Keys == rg.Keys;
    forall k | k in rh
      ensures rh[k] == rg[k]
    {
      if k !in SecureHeaderKeys {
        assert k in h;
      }
    }
  }

  /**
   * The handler secureHeaders(next) returns: the five headers are set first,
   * so `next` runs once on the unchanged request and observes them; what it
   * sets and writes reaches the response unchanged.
   */
  method SecureHeaders(next: Handler, w: ResponseWriter, r: Request)
    modifies w
    ensures w.served == old(w.served) + [(r, WithSecureHeaders(old(w.header)))]
    ensures w.header == WithSecureHeaders(old(w.header)) + next(r, WithSecureHeaders(old(w.header))).headerSets
    ensures w.writes == old(w.writes) + next(r, WithSecureHeaders(old(w.header))).writes
  {
    w.Set("Content-Security-Policy", ContentSecurityPolicy);
    w.Set("Referrer-Policy", ReferrerPolicy);
    w.Set("X-Content-Type-Options", ContentTypeOptions);
    w.Set("X-Frame-Options", FrameOptions);
    w.Set("X-XSS-Protection", XssProtection);
    w.Serve(next, r);
  }

  /** The handler logRequest(next) returns: `next` runs once on the unchanged request and response. */
  method LogRequest(next: Handler, w: ResponseWriter, r: Request)
    modifies w
    ensures w.served == old(w.served) + [(r, old(w.header))]
    ensures w.header == old(w.header) + next(r, old(w.header)).headerSets
    ensures w.writes == old(w.writes) + next(r, old(w.header)).writes
  {
    w.Serve(next, r);
  }

  /**
   * The header map `httptest.ResponseRecorder.Result` reports for a response
   * whose header map is `h` when the writes `ws` are made.  The recorder takes
   * its snapshot when the status is written; when the first write is a plain
   * body and neither Content-Type nor Transfer-Encoding is set, it first sets
   * Content-Type to the type `sniff` (http.DetectContentType) finds in the body.
   */
  function RecordedHeader(h: Header, ws: seq<Write<Page>>, sniff: string -> string): (r: Header)
    ensures ws != [] && ws[0].Body? && "Content-Type" !in h && (("Transfer-Encoding" in h) ==> h["Transfer-Encoding"] == "")
            ==> r.Keys == h.Keys + {"Content-Type"} && r["Content-Type"] == sniff(ws[0].text)
    ensures "Content-Type" in h || ws == [] || !ws[0].Body? ==> r == h
    ensures "Transfer-Encoding" in h && h["Transfer-Encoding"] != "" ==> r == h
    ensures forall k :: k in h ==> k in r && r[k] == h[k]
  {
    var sniffs := ws != [] && ws[0].Body? && "Content-Type" !in h
                  && (("Transfer-Encoding" in h) ==> h["Transfer-Encoding"] == "");
    if sniffs then h["Content-Type" := sniff(ws[0].text)] else h
  }

  /**
   * The scenario of the middleware's test: a handler that writes "OK" behind
   * secureHeaders, on a fresh recorder.  The five headers hold their values,
   * the recorder adds the Content-Type it sniffs from "OK", and the status and
   * body are the handler's own.
   */
  method SecureHeadersOnFreshResponse(sniff: string -> string) returns (header: Header, status: int, body: seq<Write<Page>>)
    ensures header.Keys == SecureHeaderKeys + {"Content-Type"}
    ensures header["Content-Security-Policy"] == ContentSecurityPolicy
    ensures header["Referrer-Policy"] == ReferrerPolicy
    ensures header["X-Content-Type-Options"] == ContentTypeOptions
    ensures header["X-Frame-Options"] == FrameOptions
    ensures header["X-XSS-Protection"] == XssProtection
    ensures header["Content-Type"] == sniff("OK")
    ensures status == StatusOK && body == [Body("OK")]
  {
    var w := new ResponseWriter();
    var next: Handler := (r: Request, h: Header) => Effect(map[], [Body("OK")]);
    SecureHeaders(next, w, Request("GET", "/", "HTTP/1.1", ""));
    header := RecordedHeader(w.header, w.writes, sniff);
    var sent := Sent(w.writes);
    status, body := sent.status, sent.parts;
  }
}
