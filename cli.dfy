/**
  One run of the client: check the flags, resolve the API key, route to an
  endpoint, page through the results and produce the lines to print.
 */
module Cli {
  import opened Results
  import opened ApiKey
  import opened Flags
  import opened Requests
  import opened Pagination
  import opened Output

  /** The fatal conditions; each ends the run with nothing printed to standard output. */
  datatype Fatal =
    | BadFlags(flagError: FlagError)
    | NoApiKey(keyError: KeyError)
    | FetchFailed(failure: PageFailure)

  /** The API's answer to a request, already decoded into an envelope (or the error). */
  type Server<T> = Request -> Result<Envelope<T>, string>

  /** `fetchCertificates` for a fixed query, as a function of the page number. */
  function CertificateFetcher(server: Server<Certificate>, q: Query, key: string): int -> Result<Envelope<Certificate>, string> {
    (page: int) => server(CertificateRequest(q.apiURL, key, q.query, page, q.queryType))
  }

  /** `fetchSubdomains` for a fixed query, as a function of the page number. */
  function SubdomainFetcher(server: Server<string>, q: Query, key: string): int -> Result<Envelope<string>, string> {
    (page: int) => server(SubdomainRequest(q.apiURL, key, q.query, page))
  }

  /** The request sent for one page on the pipeline the routing chose. */
  function PageRequest(q: Query, key: string, useCN: bool, page: int): Request {
    if TakesCertificatePath(q, useCN) then CertificateRequest(q.apiURL, key, q.query, page, q.queryType)
    else SubdomainRequest(q.apiURL, key, q.query, page)
  }

  /** The certificate half of `main`: all pages, then the output loop. */
  method RunCertificates(server: Server<Certificate>, q: Query, key: string)
    returns (out: Result<seq<string>, Fatal>, warnings: seq<Warning>, requests: seq<Request>)
    ensures var f := CertificateFetcher(server, q, key);
      && 1 <= |requests| <= LastPage(f)
      && (forall i :: 0 <= i < |requests| ==> requests[i] == CertificateRequest(q.apiURL, key, q.query, i + 1, q.queryType))
      && (PagesOk(f, 1, LastPage(f)) ==>
            && |requests| == LastPage(f)
            && out == Ok(PrintedLines(Gathered(f, LastPage(f))))
            && warnings == Warnings(Gathered(f, LastPage(f))))
      && (!PagesOk(f, 1, LastPage(f)) ==>
            && f(|requests|).Err?
            && out == Err(FetchFailed(PageFailure(|requests|, f(|requests|).error)))
            && warnings == [])
  {
    var fetched, pages := FetchAllPages(CertificateFetcher(server, q, key));
    requests := seq(|pages|, i requires 0 <= i < |pages| => CertificateRequest(q.apiURL, key, q.query, pages[i], q.queryType));
    if fetched.Err? {
      return Err(FetchFailed(fetched.error)), [], requests;
    }
    var lines;
    lines, warnings := CertificateLines(fetched.value);
    out := Ok(lines);
  }

  /** The subdomain half of `main`: all pages, one name per line. */
  method RunSubdomains(server: Server<string>, q: Query, key: string)
    returns (out: Result<seq<string>, Fatal>, requests: seq<Request>)
    ensures var g := SubdomainFetcher(server, q, key);
      && 1 <= |requests| <= LastPage(g)
      && (forall i :: 0 <= i < |requests| ==> requests[i] == SubdomainRequest(q.apiURL, key, q.query, i + 1))
      && (PagesOk(g, 1, LastPage(g)) ==>
            |requests| == LastPage(g) && out == Ok(Gathered(g, LastPage(g))))
      && (!PagesOk(g, 1, LastPage(g)) ==>
            g(|requests|).Err? && out == Err(FetchFailed(PageFailure(|requests|, g(|requests|).error))))
  {
    var fetched, pages := FetchAllPages(SubdomainFetcher(server, q, key));
    requests := seq(|pages|, i requires 0 <= i < |pages| => SubdomainRequest(q.apiURL, key, q.query, pages[i]));
    if fetched.Err? {
      return Err(FetchFailed(fetched.error)), requests;
    }
    out := Ok(fetched.value);
  }

  /**
    `main`, with the key file's contents (`None` when unreadable) and the two
    kinds of API response given as inputs. `out` holds the lines printed to
    standard output, `warnings` the skipped certificate records and
    `requests` every HTTP request sent, in order.
   */
  method Run(flags: Flags, keyFile: Option<string>, certServer: Server<Certificate>, subServer: Server<string>)
    returns (out: Result<seq<string>, Fatal>, warnings: seq<Warning>, requests: seq<Request>)
    // rejected flags and a missing key end the run before any request
    ensures CheckFlags(flags).Some? ==>
      out == Err(BadFlags(CheckFlags(flags).value)) && warnings == [] && requests == []
    ensures CheckFlags(flags).None? && ResolveKey(flags.apiKey, keyFile).Err? ==>
      out == Err(NoApiKey(ResolveKey(flags.apiKey, keyFile).error)) && warnings == [] && requests == []
    // otherwise pages 1, 2, ... are requested in order from the routed endpoint
    ensures CheckFlags(flags).None? && ResolveKey(flags.apiKey, keyFile).Ok? ==>
      var q, key := Route(flags), ResolveKey(flags.apiKey, keyFile).value;
      && requests != []
      && forall i :: 0 <= i < |requests| ==> requests[i] == PageRequest(q, key, flags.useCN, i + 1)
    // certificate pipeline: all pages, then `ip:port` lines; or the first failed page
    ensures CheckFlags(flags).None? && ResolveKey(flags.apiKey, keyFile).Ok? &&
            TakesCertificatePath(Route(flags), flags.useCN) ==>
      var f := CertificateFetcher(certServer, Route(flags), ResolveKey(flags.apiKey, keyFile).value);
      && |requests| <= LastPage(f)
      && (PagesOk(f, 1, LastPage(f)) ==>
            && |requests| == LastPage(f)
            && out == Ok(PrintedLines(Gathered(f, LastPage(f))))
            && warnings == Warnings(Gathered(f, LastPage(f))))
      && (!PagesOk(f, 1, LastPage(f)) ==>
            && f(|requests|).Err?
            && out == Err(FetchFailed(PageFailure(|requests|, f(|requests|).error)))
            && warnings == [])
    // subdomain pipeline: all pages, one name per line; or the first failed page
    ensures CheckFlags(flags).None? && ResolveKey(flags.apiKey, keyFile).Ok? &&
            !TakesCertificatePath(Route(flags), flags.useCN) ==>
      var g := SubdomainFetcher(subServer, Route(flags), ResolveKey(flags.apiKey, keyFile).value);
      && warnings == []
      && |requests| <= LastPage(g)
      && (PagesOk(g, 1, LastPage(g)) ==>
            |requests| == LastPage(g) && out == Ok(Gathered(g, LastPage(g))))
      && (!PagesOk(g, 1, LastPage(g)) ==>
            g(|requests|).Err? && out == Err(FetchFailed(PageFailure(|requests|, g(|requests|).error))))
  {
    warnings, requests := [], [];
    var flagError := CheckFlags(flags);
    if flagError.Some? {
      return Err(BadFlags(flagError.value)), warnings, requests;
    }
    var key := ResolveKey(flags.apiKey, keyFile);
    if key.Err? {
      return Err(NoApiKey(key.error)), warnings, requests;
    }
    var q := Route(flags);
    if TakesCertificatePath(q, flags.useCN) {
      out, warnings, requests := RunCertificates(certServer, q, key.value);
    } else {
      out, requests := RunSubdomains(subServer, q, key.value);
    }
  }
}
