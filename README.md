# Careerjet job scraper: the fetch-and-extract pipeline

This project models `get_jobs` from `get_careerjet.py`. It is the part of the Job-Radar page server that turns
Careerjet search pages into job records. The function tries two search URLs in order, with a fixed query
("Software Entwickler" in "Schweiz"). The first URL that answers with status 200 and yields at least one record
decides the result. A request that raises, a non-200 status and an exception while reading a page all make the
function move on to the next URL. When no URL succeeds, the result is the empty list, and nothing is raised to
the caller.

Each job container on a page becomes either nothing or a record:
- A container without a title anchor is dropped.
- The anchor's `href` gives the link. A link starting with `/` gets `https://www.careerjet.ch` prepended.
- A missing company, location or description becomes `Firma unbekannt`, `Schweiz` or `Klicken für Details...`.
- An anchor without an `href` raises `KeyError`. That discards the whole attempt, including records already built.

Files:
- `wrappers.dfy` (module `Wrappers`): `Option` and `Result`.
- `careerjet.dfy` (module `Careerjet`): the configuration, the data model, record normalisation, the reference
  functions for the strategy loop, and `GetJobs`. `GetJobs` is the imperative model of `get_jobs`: an outer loop
  over the strategies with an early return, and an inner loop that appends records and stops at the first
  exception.
- `properties.dfy` (module `CareerjetProperties`): lemmas that relate several calls or fix concrete cases.

Abstractions:
- A network request is the parameter `fetch: Strategy -> Outcome`. An `Outcome` is `Raised` (timeout,
  connection error, any exception from the request) or `Response(status, containers)`.
- `containers` stands for what the container selector found on the parsed page. Each `Container` holds what
  the four sub-element selectors found, as `Option`s. The title anchor is modelled as its text plus an
  optional `href`.
- `GetJobs` also returns `tried`, the number of requests it issued. The source has no such value; it makes
  "later strategies are never requested" something the contract can state.
- `Contribution(o)` is the list an attempt returns to the caller. It is empty exactly when the loop moves on.
  `Winner` is the index of the first strategy with a non-empty contribution, `Found` the pipeline's result and
  `Tried` the number of requests.

A job link is meant to be absolute, but the code only rewrites links that start with `/`
(`get_careerjet.py:58`), and the model follows the code. So a link like
`jobs/123.html` stays relative, and a protocol-relative link `//host/x` becomes `https://www.careerjet.ch//host/x`.
`PathRelativeLinkIsKept` and `ProtocolRelativeLinkIsPrefixed` state both cases.

## Model

| member | source | states |
|---|---|---|
| `Careerjet.AbsoluteLink` | get_careerjet.py:57-59 | a link starting with `/` becomes the origin `https://www.careerjet.ch` followed by the link; any other link is returned unchanged |
| `Careerjet.Normalize` | get_careerjet.py:55-67 | no record exactly when the title anchor is absent; a `KeyError("href")` exactly when the anchor has no `href`; otherwise a record with the anchor's text, the resolved link, and each optional field's text or its exact default (`Firma unbekannt`, `Schweiz`, `Klicken für Details...`) |
| `Careerjet.ExtractAll` | get_careerjet.py:44-67 | a page that extracts without raising yields at most one record per container |
| `Careerjet.ExtractAllFailsIff` | get_careerjet.py:55-57 | extracting a page raises if and only if some container has a title anchor without an `href` |
| `Careerjet.ErrPersists` | get_careerjet.py:49-57 | once a prefix of the containers raises, the whole page raises, whatever follows |
| `CareerjetProperties.ExtractAllRecords` | get_careerjet.py:49-67 | a page that extracts without raising yields exactly one record per titled container, in container order, each the normalisation of its container |
| `CareerjetProperties.RecordsComeFromTitledContainers` | get_careerjet.py:55-61 | every emitted record is the normalisation of some container that had a title anchor |
| `CareerjetProperties.NoTitleNoRecords` | get_careerjet.py:49-55 | a page on which no container has a title anchor yields the empty list |
| `CareerjetProperties.KeyErrorDiscardsEarlierRecords` | get_careerjet.py:44-74 | for any page whose first container builds a record and whose second has a title anchor without `href`, whatever follows, extraction raises and the attempt contributes nothing: the built record is discarded |
| `Careerjet.Contribution` | get_careerjet.py:41-74 | an attempt whose request raised, whose status is not 200, or whose page has a title anchor without `href` contributes the empty list; a 200 response whose page extracts without raising contributes exactly the extracted records (so the attempt moves on only when that list is empty); a non-empty contribution is always such a page's records |
| `Careerjet.Winner` | get_careerjet.py:36-70 | the winner is the first strategy in list order with a non-empty contribution; every earlier strategy contributed nothing; no winner means every strategy contributed nothing |
| `Careerjet.Found` | get_careerjet.py:36-76 | the result is empty if and only if every strategy contributed nothing; a non-empty result is the contribution of one of the strategies |
| `Careerjet.Tried` | get_careerjet.py:36-76 | at most one request per strategy, at least one when there is a strategy; every request before the last one issued contributed nothing; stopping before the end means the last request issued won, and a non-empty result is that request's contribution |
| `Careerjet.GetJobs` | get_careerjet.py:12-76 | the method with the two nested loops returns exactly `Found` over the two configured strategies and issues exactly `Tried` requests |
| `CareerjetProperties.OnlyPerformedAttemptsMatter` | get_careerjet.py:36-76 | two runs whose issued requests had the same outcomes return the same records and issue the same number of requests, whatever unrequested strategies would have answered |
| `CareerjetProperties.Deterministic` | get_careerjet.py:36-76 | identical request outcomes give identical results and request counts |
| `CareerjetProperties.FirstStrategyWins` | get_careerjet.py:23-70 | when the first configured strategy answers 200 with a page that extracts to at least one record, exactly one request is issued and those records are the result |
| `CareerjetProperties.SecondStrategyIsFallback` | get_careerjet.py:23-76 | when the first configured strategy contributes nothing, both are requested and the second's contribution (possibly empty) is the result |
| `CareerjetProperties.AllRequestsRaise` | get_careerjet.py:72-76 | when every request raises, every strategy is requested and the result is the empty list |
| `CareerjetProperties.AbsoluteLinkIdempotent` | get_careerjet.py:58-59 | resolving an already resolved link changes nothing |
| `CareerjetProperties.ProtocolRelativeLinkIsPrefixed` | get_careerjet.py:58-59 | every link starting with `//` still gets the origin prepended (for example `//cdn.example.com/job` becomes `https://www.careerjet.ch//cdn.example.com/job`) |
| `CareerjetProperties.PathRelativeLinkIsKept` | get_careerjet.py:58-59 | every link not starting with `/` is returned unchanged; for example `jobs/123.html` stays relative and does not start with `https://` |

## Left out

- The HTTP request (`requests.get`, the headers, the parameters and the 15-second timeout, lines 17-20 and 39): network I/O. Its outcome is the `fetch` parameter.
- HTML parsing and the CSS selector lists (`soup.select`, `select_one`, lines 43, 47 and 50-53): library behaviour. The selector results are the `containers` and the `Option` fields of a `Container`.
- The whitespace stripping of `get_text(strip=True)` (lines 56 and 64-66): extracted texts are opaque strings.
- The diagnostic `print` calls (lines 38 and 73): output only; they do not change the result.
- The Flask route `index`, the HTML template with its autoescaping and empty-state panel, and the server start with the `PORT` variable (lines 78-134): presentation and configuration.
- The serverless JSON proxy variant: its source is not part of this model.
