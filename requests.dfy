/**
  The HTTP request for one page, as `fetchSubdomains` and `fetchCertificates`
  build it before handing it to the transport.
 */
module Requests {
  import opened Results
  import opened Decimal

  datatype Request = Request(
    httpMethod: string,
    url: string,
    contentType: string,
    apiKey: string,
    body: Option<string>)

  const PageParameter: string := "?page="

  /** `fmt.Sprintf("%s?page=%d", apiURL, page)`. */
  function PageURL(apiURL: string, page: int): string {
    apiURL + PageParameter + FormatInt(page)
  }

  /** The body `{"<field>":"<q>"}`; the query is inserted as it is, without escaping. */
  function Payload(field: string, q: string): string {
    "{\"" + field + "\":\"" + q + "\"}"
  }

  /**
    The body `fetchCertificates` sends, chosen by query type. For any other
    type the Go code passes a nil `*strings.Reader` to `http.NewRequest`,
    which dereferences it and panics, so nothing is sent; `Route` never
    yields such a type. The model answers `None` there.
   */
  function CertificatePayload(query: string, queryType: string): (b: Option<string>)
    ensures b.Some? <==> queryType == "domain" || queryType == "org"
  {
    if queryType == "domain" then Some(Payload("domain", query))
    else if queryType == "org" then Some(Payload("org_name", query))
    else None
  }

  function SubdomainRequest(apiURL: string, apiKey: string, domain: string, page: int): Request {
    Request("POST", PageURL(apiURL, page), "application/json", apiKey, Some(Payload("domain", domain)))
  }

  function CertificateRequest(apiURL: string, apiKey: string, query: string, page: int, queryType: string): Request {
    Request("POST", PageURL(apiURL, page), "application/json", apiKey, CertificatePayload(query, queryType))
  }

  /**
    A page URL is the endpoint, then `?page=`, then text that Atoi reads back
    as the page number; so distinct pages have distinct URLs.
   */
  lemma PageURLDecodes(apiURL: string, page: int)
    ensures |PageURL(apiURL, page)| > |apiURL| + |PageParameter|
    ensures PageURL(apiURL, page)[..|apiURL|] == apiURL
    ensures PageURL(apiURL, page)[|apiURL|..|apiURL| + |PageParameter|] == PageParameter
    ensures Atoi(PageURL(apiURL, page)[|apiURL| + |PageParameter|..]) == Some(page)
  {
    var u := PageURL(apiURL, page);
    assert u[|apiURL| + |PageParameter|..] == FormatInt(page);
    AtoiFormatInt(page);
  }

  lemma PageURLInjective(apiURL: string, m: int, n: int)
    requires PageURL(apiURL, m) == PageURL(apiURL, n)
    ensures m == n
  {
    PageURLDecodes(apiURL, m);
    PageURLDecodes(apiURL, n);
  }

  /** The query sits verbatim between the fixed prefix and `"}`, so the body determines it. */
  lemma PayloadQuery(field: string, q: string)
    ensures var b := Payload(field, q); var n := |field| + 5;
      && |b| == n + |q| + 2
      && b[..n] == "{\"" + field + "\":\""
      && b[n..n + |q|] == q
      && b[n + |q|..] == "\"}"
  {
  }

  lemma PayloadInjective(field: string, q: string, q': string)
    requires Payload(field, q) == Payload(field, q')
    ensures q == q'
  {
    PayloadQuery(field, q);
    PayloadQuery(field, q');
  }

  /**
    Certificate search by domain sends the same request shape as subdomain
    search (only the endpoint differs); search by organisation sends the
    `org_name` body instead.
   */
  lemma DomainRequestsAgree(apiURL: string, apiKey: string, q: string, page: int)
    ensures CertificateRequest(apiURL, apiKey, q, page, "domain") == SubdomainRequest(apiURL, apiKey, q, page)
    ensures CertificateRequest(apiURL, apiKey, q, page, "org").body == Some(Payload("org_name", q))
    ensures CertificateRequest(apiURL, apiKey, q, page, "org").body != SubdomainRequest(apiURL, apiKey, q, page).body
  {
    assert Payload("org_name", q)[2] != Payload("domain", q)[2];
  }
}
