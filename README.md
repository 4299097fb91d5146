# rsescan core, modelled in Dafny

`rsescan` is a command-line client for the RSECloud threat-intelligence API.
It asks for either the subdomains of a domain or the TLS certificate records
matching a domain or an organisation name. It pages through the results and
prints one line per record. This project models the deterministic core of its
single source file `main.go`:

- `port.dfy` / `decimal.dfy`: `parsePort`, which turns the polymorphic JSON `port`
  field into an integer. It tries a JSON string first and runs `strconv.Atoi`
  on it. Only when that decode fails does it try a native integer. It also
  covers the `%d` formatting used for page numbers and ports.
- `flags.dfy`: the flag checks in `main`, the routing to endpoint, query and
  query type, and the branch between the certificate and subdomain pipelines.
- `requests.dfy`: the page URL `apiURL?page=N` and the JSON request body built
  by `fetchSubdomains` / `fetchCertificates`.
- `pagination.dfy`: the pagination loop (page 1, then pages 2..`TotalPages`,
  stopping at the first error), written as a method over a page-fetch oracle.
- `output.dfy`: the certificate output loop. It prints `ip:port` and skips,
  with a warning, any record whose port does not normalise.
- `apikey.dfy`: `strings.TrimSpace` and the empty-key check of
  `getAPIKeyFromFile`, plus the rule that the `-key` flag takes precedence.
- `cli.dfy`: `Run`, which joins the pieces the way `main` does and returns the
  printed lines, the warnings and the exact sequence of HTTP requests issued.

The network is an oracle: a function from a `Request` (method, URL, content
type, API key, body) to a decoded envelope or an error string. The key file is
an input: its contents, or `None` when it cannot be read. A fatal
`log.Fatal` path is an `Err` result, and printed lines are a returned sequence.

Modelling choices that follow the code:
- A JSON number is carried as its literal. Go decodes a number into an `int`
  by running `strconv.ParseInt` on the literal, so the model runs Atoi on it.
  A native integer `n` is `JNumber(FormatInt(n))`. A `JNumber` literal is
  assumed to follow JSON number syntax: no `+` sign and no leading zeros.
- JSON `null` decodes into a Go string without error and leaves it empty.
  The string branch is therefore taken, and `Atoi("")` fails. The model
  reproduces this, so `null` is an error.
- An absent `port` field (an empty raw message) fails both decodes.
- For a query type other than `domain` or `org`, `fetchCertificates` leaves its
  payload a nil `*strings.Reader`. `http.NewRequest` then dereferences it and
  panics, so no request is sent. Routing never produces such a type. The model
  builds a request without a body there, and this is never issued.
- The query is put into the JSON body verbatim, with no escaping.
- Subdomain search uses the query type `domain`, the same one as certificate
  search by domain. The pipeline is chosen by `queryType != "domain" || useCN`,
  and `Flags.CertificatePathChoice` shows that this test picks the right one.

## Model

| member | source | states |
|---|---|---|
| `Decimal.Atoi` | main.go:112 | `strconv.Atoi` in base 10; `AtoiAccepts` proves it accepts exactly the integer literals and returns their value, and `AtoiFormatInt` that it reads back what `FormatInt` prints |
| `Decimal.FormatInt` | main.go:41 | the `%d` verb; `Digits` gives the digits with no leading zero, and `AtoiFormatInt` / `FormatIntInjective` prove it prints an integer literal that reads back as the same, distinct number |
| `Decimal.AtoiAccepts` | main.go:112 | Atoi succeeds exactly on an optional sign followed by one or more digits, and then yields the positional value of those digits with the sign applied |
| `Decimal.Digits` | main.go:41 | the decimal digits of a natural number are non-empty, all digits, with no leading zero |
| `Decimal.AtoiFormatInt` | main.go:41 | what `%d` prints is an integer literal, and Atoi reads it back as the same number |
| `Decimal.FormatIntInjective` | main.go:41 | distinct numbers are printed as distinct text |
| `Port.DecodeString` | main.go:110-111 | decoding into a Go string succeeds on a JSON string and on `null` (as `""`); `ParsePortString` and `ParsePortOtherShapes` state what `ParsePort` then does |
| `Port.DecodeInt` | main.go:115-116 | decoding into a Go int succeeds on a number literal that Atoi accepts and on `null` (as 0), which `ParsePort` never passes here; `ParsePortNative`, `ParsePortNumberLiteral` and `ParsePortNonInteger` state the outcome |
| `Port.ParsePort` | main.go:109-121 | only a JSON string or a JSON number can yield a port; once the string decode succeeds, a failing Atoi is the final error (no fall-through to the integer branch) |
| `Port.ParsePortString` | main.go:110-113 | a JSON string yields exactly Atoi's verdict on its text: the value of an integer literal, otherwise `NotAnInteger` |
| `Port.ParsePortQuoted` | main.go:110-113 | a quoted integer such as `"443"` normalises to that integer |
| `Port.ParsePortNative` | main.go:115-118 | a native JSON integer is returned unchanged |
| `Port.ParsePortNumberLiteral` | main.go:115-118 | any JSON integer literal, canonical or not (such as `-0`), yields the integer it denotes |
| `Port.ParsePortNonInteger` | main.go:115-120 | a JSON number with a fraction or an exponent gives the "unable to parse port" error |
| `Port.ParsePortOtherShapes` | main.go:119-120 | booleans, null, arrays, objects and an absent field are errors |
| `ApiKey.IsSpace` | main.go:129 | the characters `strings.TrimSpace` removes, Go's `unicode.IsSpace`: tab through carriage return, space, U+0085, U+00A0, U+1680, U+2000 to U+200A, U+2028, U+2029, U+202F, U+205F and U+3000 |
| `ApiKey.TrimSpace` | main.go:129 | `strings.TrimSpace`; `TrimSpaceSlice`, `TrimSpaceSpec` and `TrimSpaceIdempotent` state what it returns |
| `ApiKey.LeadingSpaces` | main.go:129 | counts the longest all-whitespace prefix: every counted character is a space, the next one is not |
| `ApiKey.TrailingSpaces` | main.go:129 | counts the longest all-whitespace suffix in the same way |
| `ApiKey.TrimSpaceSlice` | main.go:129 | the trimmed text is the slice of the input that starts after its leading whitespace, and only whitespace follows it |
| `ApiKey.TrimSpaceSpec` | main.go:129 | the trimmed text begins and ends with a non-space character, and it is empty exactly when the input is all whitespace |
| `ApiKey.TrimSpaceIdempotent` | main.go:129 | trimming twice is trimming once |
| `ApiKey.KeyFromFile` | main.go:125-133 | an unreadable file and an all-whitespace file are the two errors, each in exactly its own case; otherwise the key is the file's contents with whitespace trimmed, non-empty and with no surrounding whitespace |
| `ApiKey.ResolveKey` | main.go:153-159 | a non-empty `-key` flag is used as given; otherwise the file's key is used; the key in use is never empty |
| `Flags.CheckFlags` | main.go:144-151 | flags pass exactly when they are a domain alone, a domain with `-cn`, or an organisation alone; "must be provided" is reported exactly when nothing is set |
| `Flags.Route` | main.go:161-177 | the query type is `domain` or `org`; the query is the organisation name for `org` and the domain otherwise; the subdomain endpoint is chosen exactly when neither `-cn` nor `-so` is set |
| `Flags.TakesCertificatePath` | main.go:179 | the test choosing the certificate pipeline; `CertificatePathChoice` and `RouteByMode` prove it holds exactly when `-cn` or `-so` is set |
| `Flags.CertificatePathChoice` | main.go:165-179 | the certificate pipeline runs exactly when `-cn` or `-so` is set, and exactly when a certificate endpoint was chosen |
| `Flags.RouteByMode` | main.go:145-179 | each of the three accepted modes gets its own endpoint, query, query type and pipeline |
| `Requests.PageURL` | main.go:41 | the page URL; `PageURLDecodes` and `PageURLInjective` prove it is the endpoint, `?page=` and the page number read back by Atoi |
| `Requests.Payload` | main.go:42 | the JSON body; `PayloadQuery` and `PayloadInjective` prove it is the fixed prefix, the query verbatim and `"}`, and that it determines the query |
| `Requests.SubdomainRequest` | main.go:40-49 | the POST request of `fetchSubdomains`; `DomainRequestsAgree` relates it to the certificate request |
| `Requests.CertificateRequest` | main.go:72-86 | the POST request of `fetchCertificates`; `CertificatePayload` fixes its body and `DomainRequestsAgree` relates it to the subdomain request |
| `Requests.CertificatePayload` | main.go:74-79 | a body is sent exactly for query types `domain` and `org` |
| `Requests.PageURLDecodes` | main.go:41 | a page URL is the endpoint, then `?page=`, then text that Atoi reads back as the page number |
| `Requests.PageURLInjective` | main.go:73 | different pages are requested under different URLs |
| `Requests.PayloadQuery` | main.go:42 | the body is the fixed prefix, the query verbatim, then `"}` |
| `Requests.PayloadInjective` | main.go:76-78 | the body determines the query |
| `Requests.DomainRequestsAgree` | main.go:40-49 | a certificate-by-domain request equals the subdomain request for the same URL, key, query and page; a by-organisation request carries an `org_name` body, which differs from the domain body |
| `Pagination.LastPage` | main.go:188 | the last page asked for is exactly the page count reported by page 1 when that count is at least 1, and exactly 1 when page 1 fails or reports at most 1 page |
| `Pagination.FetchAllPages` | main.go:180-194 | pages are requested as 1, 2, ... with none beyond the last page; a single page is requested when the count is at most 1; when all pages succeed the result is their records concatenated in page order; otherwise the first failing page ends the run with its error |
| `Pagination.GatheredSplit` | main.go:186-193 | the records of the first pages are a prefix of all gathered records, and the next page's records follow them directly |
| `Pagination.GatheredPage` | main.go:186-193 | record `j` of page `p` appears right after all records of the earlier pages |
| `Pagination.TwoPageExample` | main.go:207-219 | two records on page 1 (which reports 2 pages) and one on page 2 are gathered as those three records, in order |
| `Output.Rendered` | main.go:197-202 | the `ip:port` line of one record when its port normalises; `PrintedLinesSound`, `PrintedLinesAllParse` and `QuotedPortLine` state what the output is made of |
| `Output.Complaint` | main.go:197-200 | the warning for one record whose port does not normalise; `EveryRecordAccounted` and `SkippedRecord` prove it arises exactly when no line is printed |
| `Output.CertificateLines` | main.go:196-203 | the output loop prints exactly the rendered lines of the records, in order, and warns about exactly the skipped ones |
| `Output.PrintedLinesAppend` | main.go:196-203 | output and warnings for a concatenation of records are the concatenation of their outputs and warnings |
| `Output.EveryRecordAccounted` | main.go:196-203 | each record is either printed or warned about, never both and never neither |
| `Output.PrintedLinesSound` | main.go:196-202 | every printed line is the `ip:port` rendering of a record whose port normalised |
| `Output.PrintedLinesAllParse` | main.go:196-202 | when every port normalises, line `i` is the rendering of record `i` |
| `Output.SkippedRecord` | main.go:197-201 | a record whose port does not normalise prints nothing and gives one warning carrying the port error |
| `Output.QuotedPortLine` | main.go:197-202 | a record with port `"N"` prints `ip:N` |
| `Output.UnparseablePortSkipped` | main.go:197-203 | a record whose port does not normalise is dropped from the output and warned about with its error, and the records around it still print |
| `Output.BooleanPortSkipped` | main.go:197-203 | a record with port `true` is dropped from the output and warned about, and the records around it still print |
| `Cli.CertificateFetcher` | main.go:182-189 | `fetchCertificates` for the routed query as a function of the page; `RunCertificates` and `Run` state the pages asked of it and the output built from it |
| `Cli.SubdomainFetcher` | main.go:207-214 | `fetchSubdomains` for the routed query as a function of the page; `RunSubdomains` and `Run` state the pages asked of it and the output |
| `Cli.PageRequest` | main.go:179-214 | the request sent for one page on the routed pipeline; `Run` proves the requests issued are exactly these for pages 1, 2, ... in order |
| `Cli.RunCertificates` | main.go:179-203 | certificate pipeline: requests pages 1, 2, ... of the query in order, never past the last page; when all pages succeed it prints the `ip:port` lines of the gathered records and warns about the skipped ones; otherwise it fails with the first failing page and prints nothing |
| `Cli.RunSubdomains` | main.go:204-224 | subdomain pipeline: requests pages 1, 2, ... in order; when all pages succeed it prints the gathered names in page order; otherwise it fails with the first failing page |
| `Cli.Run` | main.go:136-225 | bad flags or a missing key end the run before any request; otherwise the requests are pages 1, 2, ... of the routed query to the routed endpoint; the output is the gathered records (subdomains) or their `ip:port` lines (certificates) when all pages succeed, otherwise the failure of the first failing page |

## Left out

- HTTP transport (`http.NewRequest`, `client.Do`, reading the body) is network I/O. An oracle from `Request` to a decoded envelope or an error string stands in for it. Because the oracle is arbitrary, it also covers non-2xx replies whose body decodes.
- JSON decoding of envelopes (`json.Unmarshal`) is a library. Envelopes are already-decoded values with only the fields the code reads (`data`, `total_pages`); `count`, `page` and `pagesize` are never read.
- Reading the key file, `os.Getenv("HOME")` and `filepath.Join` are I/O. The model takes the file's contents as an input.
- `log.Fatal`, `log.Printf` and `fmt.Printf` are output. Fatal paths are `Err` results, warnings are returned values and printed lines are a returned sequence.
- Decimal.AtoiAccepts: does not model the 64-bit range error of `strconv.Atoi`, or Go's 64-bit `int` for ports and page numbers; integers are unbounded.
- Port.ParsePortNative: a JSON integer outside the 64-bit range, which Go rejects, is accepted.
- ApiKey.TrimSpaceSpec: works on decoded characters. The UTF-8 decoding of the file's bytes, and invalid byte sequences, are not modelled.
- The panic of `fetchCertificates` on an unknown query type is not modelled; that path cannot be reached from `main`.
- Flag parsing itself (`flag.String`, `flag.Bool`, `flag.Parse`) is a library. The model starts from the parsed values.
