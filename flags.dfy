/**
  Command-line flags: which combinations are accepted, and how an accepted
  combination selects the endpoint, the query and the query type.
 */
module Flags {
  import opened Results

  /** The parsed flags `-d`, `-key`, `-cn` and `-so`; an unset string flag is empty. */
  datatype Flags = Flags(domain: string, apiKey: string, useCN: bool, orgName: string)

  datatype FlagError =
    | InvalidCombination  // "Invalid combination of flags. ..."
    | MissingQuery        // "Domain or organization name must be provided."

  /**
    The two fatal checks made before anything else. A combination passes
    exactly when it is one of the three modes: a domain alone, a domain with
    `-cn`, or an organisation name alone. Nothing set at all is the one case
    reported as a missing query.
   */
  function CheckFlags(f: Flags): (r: Option<FlagError>)
    ensures r.None? <==>
      || (f.domain != "" && f.orgName == "" && !f.useCN)
      || (f.domain != "" && f.orgName == "" && f.useCN)
      || (f.domain == "" && f.orgName != "" && !f.useCN)
    ensures r == Some(MissingQuery) <==> f.domain == "" && f.orgName == "" && !f.useCN
  {
    if (f.domain != "" && f.orgName != "") || (f.useCN && f.orgName != "") || (f.useCN && f.domain == "") then
      Some(InvalidCombination)
    else if f.domain == "" && f.orgName == "" then
      Some(MissingQuery)
    else
      None
  }

  const CertificatesByDomainURL: string := "https://api.rsecloud.com/api/v1/searchCertificatesByDomain"
  const CertificatesByOrgURL: string := "https://api.rsecloud.com/api/v1/searchCertificatesByOrgName"
  const SubdomainsURL: string := "https://api.rsecloud.com/api/v1/subdomains"

  /** What the run asks for: endpoint, query string and query type. */
  datatype Query = Query(apiURL: string, query: string, queryType: string)

  /** The `if/else` chain choosing endpoint, query and query type. */
  function Route(f: Flags): (q: Query)
    ensures q.queryType == "domain" || q.queryType == "org"
    ensures q.query == if q.queryType == "org" then f.orgName else f.domain
    ensures q.apiURL == SubdomainsURL <==> !f.useCN && f.orgName == ""
  {
    if f.useCN then Query(CertificatesByDomainURL, f.domain, "domain")
    else if f.orgName != "" then Query(CertificatesByOrgURL, f.orgName, "org")
    else Query(SubdomainsURL, f.domain, "domain")
  }

  /** The test choosing the certificate pipeline over the subdomain pipeline. */
  predicate TakesCertificatePath(q: Query, useCN: bool) {
    q.queryType != "domain" || useCN
  }

  /**
    On every combination, the certificate pipeline runs exactly when `-cn` or
    `-so` was given, and it then uses one of the two certificate endpoints;
    otherwise the subdomain endpoint is used.
   */
  lemma CertificatePathChoice(f: Flags)
    ensures TakesCertificatePath(Route(f), f.useCN) <==> f.useCN || f.orgName != ""
    ensures TakesCertificatePath(Route(f), f.useCN) <==> Route(f).apiURL != SubdomainsURL
  {
  }

  /** Each of the three accepted modes is routed to its own endpoint and pipeline. */
  lemma RouteByMode(f: Flags)
    requires CheckFlags(f).None?
    ensures f.domain != "" && !f.useCN ==>
      Route(f) == Query(SubdomainsURL, f.domain, "domain") && !TakesCertificatePath(Route(f), f.useCN)
    ensures f.useCN ==>
      Route(f) == Query(CertificatesByDomainURL, f.domain, "domain") && TakesCertificatePath(Route(f), f.useCN)
    ensures f.orgName != "" ==>
      Route(f) == Query(CertificatesByOrgURL, f.orgName, "org") && TakesCertificatePath(Route(f), f.useCN)
  {
  }
}
