/**
 * The Careerjet scraper's fetch-and-extract pipeline (`get_jobs`).
 *
 * The HTTP request and the CSS selection are not modelled: a request is a
 * function from a strategy to its outcome, and a parsed page is the list of
 * job containers with, for each one, what the four sub-element selectors
 * found. What remains is the per-container record construction and the
 * short-circuiting loop over the strategies.
 */
module Careerjet {
  import opened Wrappers

  // ---------------------------------------------------------------------
  // Configuration

  const SearchQuery: string := "Software Entwickler"
  const Location: string := "Schweiz"

  /** The origin prepended to site-relative links. */
  const Origin: string := "https://www.careerjet.ch"

  const DefaultCompany: string := "Firma unbekannt"
  const DefaultLocation: string := "Schweiz"
  const DefaultDescription: string := "Klicken für Details..."

  /** One way of asking the job board for the same search: a URL and its query parameters. */
  datatype Strategy = Strategy(url: string, params: seq<(string, string)>)

  /** The strategies, in the order they are tried. */
  const UrlsToTry: seq<Strategy> := [
    Strategy("https://www.careerjet.ch/search/results.html",
             [("s", SearchQuery), ("l", Location), ("sort", "date")]),
    Strategy("https://www.careerjet.ch/ws/suche/l/s.html",
             [("s", SearchQuery), ("l", Location)])
  ]

  // ---------------------------------------------------------------------
  // Data model

  /** The anchor found as a container's title: its text and its `href` attribute, if any. */
  datatype TitleElement = TitleElement(text: string, href: Option<string>)

  /** One job container of a parsed page, as its sub-element selectors found it. */
  datatype Container = Container(
    title: Option<TitleElement>,
    company: Option<string>,
    location: Option<string>,
    description: Option<string>)

  /** A normalised job record. */
  datatype Job = Job(title: string, link: string, company: string, location: string, description: string)

  /** An exception raised while extracting records from a page. */
  datatype Error = KeyError(key: string)

  /** What one request produced: it raised (timeout, connection error, ...) or it got a response. */
  datatype Outcome = Raised | Response(status: int, containers: seq<Container>)

  predicate StartsWith(s: string, prefix: string) {
    |prefix| <= |s| && s[..|prefix|] == prefix
  }

  /** A container whose title anchor has no `href`: reading the attribute raises. */
  predicate MissingHref(c: Container) {
    c.title.Some? && c.title.value.href.None?
  }

  // ---------------------------------------------------------------------
  // Record normalisation

  /** Resolves a link that starts with `/` against the site's origin; any other link is kept. */
  function AbsoluteLink(link: string): (r: string)
    ensures StartsWith(link, "/") ==> StartsWith(r, Origin) && r[|Origin|..] == link
    ensures !StartsWith(link, "/") ==> r == link
  {
    if StartsWith(link, "/") then Origin + link else link
  }

  /**
   * The record one container yields: none when it has no title anchor, a
   * KeyError when the anchor has no `href`, and otherwise a record whose
   * missing fields take their fixed defaults.
   */
  function Normalize(c: Container): (r: Result<Option<Job>, Error>)
    ensures r == Ok(None) <==> c.title.None?
    ensures r.Err? <==> MissingHref(c)
    ensures r.Err? ==> r.error == KeyError("href")
    ensures r.Ok? && r.value.Some? ==>
      var job := r.value.value;
      && c.title.Some? && c.title.value.href.Some?
      && job.title == c.title.value.text
      && job.link == AbsoluteLink(c.title.value.href.value)
      && (c.company.Some? ==> job.company == c.company.value)
      && (c.company.None? ==> job.company == DefaultCompany)
      && (c.location.Some? ==> job.location == c.location.value)
      && (c.location.None? ==> job.location == DefaultLocation)
      && (c.description.Some? ==> job.description == c.description.value)
      && (c.description.None? ==> job.description == DefaultDescription)
  {
    match c.title
    case None => Ok(None)
    case Some(titleEl) =>
      match titleEl.href
      case None => Err(KeyError("href"))
      case Some(href) =>
        Ok(Some(Job(
          titleEl.text,
          AbsoluteLink(href),
          c.company.GetOr(DefaultCompany),
          c.location.GetOr(DefaultLocation),
          c.description.GetOr(DefaultDescription))))
  }

  /**
   * The records a page yields, in container order, or the first exception
   * raised while building them (records built before it are lost).
   */
  function ExtractAll(cs: seq<Container>): (r: Result<seq<Job>, Error>)
    ensures r.Ok? ==> |r.value| <= |cs|
    decreases |cs|
  {
    if cs == [] then Ok([])
    else
      match ExtractAll(cs[..|cs| - 1])
      case Err(e) => Err(e)
      case Ok(jobs) =>
        match Normalize(cs[|cs| - 1])
        case Err(e) => Err(e)
        case Ok(None) => Ok(jobs)
        case Ok(Some(job)) => Ok(jobs + [job])
  }

  /** The indices of the containers that have a title anchor, in increasing order. */
  function Titled(cs: seq<Container>): (idx: seq<nat>)
    ensures forall m :: 0 <= m < |idx| ==> idx[m] < |cs| && cs[idx[m]].title.Some?
    ensures forall m, n :: 0 <= m < n < |idx| ==> idx[m] < idx[n]
    ensures forall i :: 0 <= i < |cs| && cs[i].title.Some? ==> i in idx
    decreases |cs|
  {
    if cs == [] then []
    else if cs[|cs| - 1].title.Some? then Titled(cs[..|cs| - 1]) + [|cs| - 1]
    else Titled(cs[..|cs| - 1])
  }

  // ---------------------------------------------------------------------
  // Strategy fallback

  /**
   * The records an attempt returns to the caller; empty when the pipeline
   * moves on to the next strategy (the request raised, the status was not
   * 200, extraction raised, or the page had no record).
   */
  function Contribution(o: Outcome): (r: seq<Job>)
    ensures o.Raised? || o.status != 200 ==> r == []
    ensures o.Response? && (exists i :: 0 <= i < |o.containers| && MissingHref(o.containers[i])) ==> r == []
    ensures r != [] ==> o.Response? && o.status == 200 && ExtractAll(o.containers) == Ok(r)
    ensures o.Response? && o.status == 200 && ExtractAll(o.containers).Ok? ==> r == ExtractAll(o.containers).value
  {
    match o
    case Raised => []
    case Response(status, cs) =>
      if status != 200 then []
      else
        ExtractAllFailsIff(cs);
        match ExtractAll(cs)
        case Err(_) => []
        case Ok(jobs) => jobs
  }

  /** The index of the first strategy whose attempt returns records, if any. */
  function Winner(s: seq<Strategy>, fetch: Strategy -> Outcome): (w: Option<nat>)
    ensures w.Some? ==> w.value < |s| && Contribution(fetch(s[w.value])) != []
    ensures w.Some? ==> forall j :: 0 <= j < w.value ==> Contribution(fetch(s[j])) == []
    ensures w.None? ==> forall j :: 0 <= j < |s| ==> Contribution(fetch(s[j])) == []
  {
    if s == [] then None
    else if Contribution(fetch(s[0])) != [] then Some(0)
    else
      match Winner(s[1..], fetch)
      case None => None
      case Some(i) => Some(i + 1)
  }

  /** What `get_jobs` returns: the winning attempt's records, or the empty list. */
  function Found(s: seq<Strategy>, fetch: Strategy -> Outcome): (r: seq<Job>)
    ensures r == [] <==> forall j :: 0 <= j < |s| ==> Contribution(fetch(s[j])) == []
    ensures r != [] ==> exists i :: 0 <= i < |s| && r == Contribution(fetch(s[i]))
  {
    match Winner(s, fetch)
    case None => []
    case Some(i) => Contribution(fetch(s[i]))
  }

  /** How many requests `get_jobs` issues: up to and including the winner, or all of them. */
  function Tried(s: seq<Strategy>, fetch: Strategy -> Outcome): (n: nat)
    ensures n <= |s|
    ensures s != [] ==> 0 < n
    ensures forall j :: 0 <= j < n - 1 ==> Contribution(fetch(s[j])) == []
    ensures 0 < n < |s| ==> Contribution(fetch(s[n - 1])) != []
    ensures Found(s, fetch) != [] ==> 0 < n && Found(s, fetch) == Contribution(fetch(s[n - 1]))
  {
    match Winner(s, fetch)
    case None => |s|
    case Some(i) => i + 1
  }

  /**
   * `get_jobs`: tries each strategy in turn, returns the records of the first
   * one that answers 200 with at least one record, and returns the empty list
   * when none does. `tried` is the number of requests it issued.
   */
  method GetJobs(fetch: Strategy -> Outcome) returns (jobs: seq<Job>, tried: nat)
    ensures jobs == Found(UrlsToTry, fetch)
    ensures tried == Tried(UrlsToTry, fetch)
  {
    var i := 0;
    while i < |UrlsToTry|
      invariant i <= |UrlsToTry|
      invariant forall j :: 0 <= j < i ==> Contribution(fetch(UrlsToTry[j])) == []
    {
      var attempt := UrlsToTry[i];
      var response := fetch(attempt);
      if response.Response? && response.status == 200 {
        var jobListings := response.containers;
        var found: seq<Job> := [];
        var raised := false;
        var k := 0;
        while k < |jobListings| && !raised
          invariant k <= |jobListings|
          invariant !raised ==> ExtractAll(jobListings[..k]) == Ok(found)
          invariant raised ==> ExtractAll(jobListings[..k]).Err?
        {
          assert jobListings[..k + 1][..k] == jobListings[..k];
          match Normalize(jobListings[k]) {
            case Err(_) =>
              raised := true;
            case Ok(None) =>
            case Ok(Some(job)) =>
              found := found + [job];
          }
          k := k + 1;
        }
        if raised {
          ErrPersists(jobListings, k);
        } else {
          assert jobListings[..k] == jobListings;
          if found != [] {
            jobs, tried := found, i + 1;
            return;
          }
        }
      }
      i := i + 1;
    }
    jobs, tried := [], |UrlsToTry|;
  }

  // ---------------------------------------------------------------------
  // Lemmas used by the definitions above

  /** Once a prefix of the page raises, the whole page raises. */
  lemma {:induction false} ErrPersists(cs: seq<Container>, k: nat)
    requires k <= |cs|
    requires ExtractAll(cs[..k]).Err?
    ensures ExtractAll(cs).Err?
    decreases |cs| - k
  {
    if k < |cs| {
      assert cs[..k + 1][..k] == cs[..k];
      ErrPersists(cs, k + 1);
    } else {
      assert cs[..k] == cs;
    }
  }

  /** Extraction raises exactly when some container's title anchor has no `href`. */
  lemma {:induction false} ExtractAllFailsIff(cs: seq<Container>)
    ensures ExtractAll(cs).Err? <==> exists i :: 0 <= i < |cs| && MissingHref(cs[i])
    decreases |cs|
  {
    if cs != [] {
      var init := cs[..|cs| - 1];
      ExtractAllFailsIff(init);
      if exists i :: 0 <= i < |init| && MissingHref(init[i]) {
        var i :| 0 <= i < |init| && MissingHref(init[i]);
        assert cs[i] == init[i];
      }
      if exists i :: 0 <= i < |cs| && MissingHref(cs[i]) {
        var i :| 0 <= i < |cs| && MissingHref(cs[i]);
        if i < |init| {
          assert init[i] == cs[i];
        }
      }
    }
  }
}
