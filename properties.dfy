/** Properties of the Careerjet pipeline that relate several calls or fix concrete cases. */
module CareerjetProperties {
  import opened Wrappers
  import opened Careerjet

  // ---------------------------------------------------------------------
  // Record construction within one page

  /**
   * When a page extracts without raising, its records are exactly those of
   * its titled containers, one each and in container order.
   */
  lemma {:induction false} ExtractAllRecords(cs: seq<Container>)
    requires ExtractAll(cs).Ok?
    ensures |ExtractAll(cs).value| == |Titled(cs)|
    ensures forall m :: 0 <= m < |Titled(cs)| ==>
      Normalize(cs[Titled(cs)[m]]) == Ok(Some(ExtractAll(cs).value[m]))
    decreases |cs|
  {
    if cs != [] {
      var init := cs[..|cs| - 1];
      var last := cs[|cs| - 1];
      ExtractAllRecords(init);
      var jobs := ExtractAll(init).value;
      forall m | 0 <= m < |Titled(init)|
        ensures cs[Titled(init)[m]] == init[Titled(init)[m]]
      {
      }
      if last.title.Some? {
        assert Titled(cs) == Titled(init) + [|cs| - 1];
      }
    }
  }

  /** Every record of a page comes from a container that had a title anchor. */
  lemma RecordsComeFromTitledContainers(cs: seq<Container>, m: nat)
    requires ExtractAll(cs).Ok? && m < |ExtractAll(cs).value|
    ensures exists i :: 0 <= i < |cs| && cs[i].title.Some? && Normalize(cs[i]) == Ok(Some(ExtractAll(cs).value[m]))
  {
    ExtractAllRecords(cs);
    var i := Titled(cs)[m];
    assert cs[i].title.Some? && Normalize(cs[i]) == Ok(Some(ExtractAll(cs).value[m]));
  }

  /** A page none of whose containers has a title anchor yields no record. */
  lemma {:induction false} NoTitleNoRecords(cs: seq<Container>)
    requires forall i :: 0 <= i < |cs| ==> cs[i].title.None?
    ensures ExtractAll(cs) == Ok([])
    decreases |cs|
  {
    if cs != [] {
      NoTitleNoRecords(cs[..|cs| - 1]);
    }
  }

  /**
   * A KeyError anywhere on the page discards the whole attempt, including a
   * record already built from an earlier container.
   */
  lemma KeyErrorDiscardsEarlierRecords(first: Container, second: Container, rest: seq<Container>)
    requires Normalize(first).Ok? && Normalize(first).value.Some?
    requires MissingHref(second)
    ensures ExtractAll([first, second] + rest).Err?
    ensures Contribution(Response(200, [first, second] + rest)) == []
  {
    ExtractAllFailsIff([first, second] + rest);
    assert MissingHref(([first, second] + rest)[1]);
  }

  // ---------------------------------------------------------------------
  // Links

  /** Resolving a link twice changes nothing more than resolving it once. */
  lemma AbsoluteLinkIdempotent(link: string)
    ensures AbsoluteLink(AbsoluteLink(link)) == AbsoluteLink(link)
  {
    if StartsWith(link, "/") {
      assert (Origin + link)[0] == 'h';
    }
  }

  /** A protocol-relative link is still prefixed with the origin (the code checks one `/` only). */
  lemma ProtocolRelativeLinkIsPrefixed(link: string)
    requires StartsWith(link, "//")
    ensures AbsoluteLink(link) == Origin + link
    ensures AbsoluteLink("//cdn.example.com/job") == "https://www.careerjet.ch//cdn.example.com/job"
  {
  }

  /** A relative link that does not start with `/` is returned unresolved, so it stays relative. */
  lemma PathRelativeLinkIsKept(link: string)
    requires !StartsWith(link, "/")
    ensures AbsoluteLink(link) == link
    ensures AbsoluteLink("jobs/123.html") == "jobs/123.html"
    ensures !StartsWith(AbsoluteLink("jobs/123.html"), "https://")
  {
    var example := "jobs/123.html";
    assert example[..1][0] == 'j' != '/';
    assert example[..8][0] == 'j' != 'h';
  }

  // ---------------------------------------------------------------------
  // Strategy fallback

  /**
   * The result and the number of requests depend only on the outcomes of the
   * requests actually issued: two runs whose performed requests had the same
   * outcomes agree, whatever the later strategies would have answered.
   */
  lemma OnlyPerformedAttemptsMatter(s: seq<Strategy>, f1: Strategy -> Outcome, f2: Strategy -> Outcome)
    requires forall j :: 0 <= j < Tried(s, f1) ==> f1(s[j]) == f2(s[j])
    ensures Found(s, f1) == Found(s, f2)
    ensures Tried(s, f1) == Tried(s, f2)
  {
    // Both runs see the same failures before the winner of the first run and
    // the same outcome at it, so Winner's characterisation fixes the second run.
  }

  /** Identical request outcomes give identical results. */
  lemma Deterministic(s: seq<Strategy>, f1: Strategy -> Outcome, f2: Strategy -> Outcome)
    requires forall j :: 0 <= j < |s| ==> f1(s[j]) == f2(s[j])
    ensures Found(s, f1) == Found(s, f2) && Tried(s, f1) == Tried(s, f2)
  {
    OnlyPerformedAttemptsMatter(s, f1, f2);
  }

  /**
   * When the first strategy answers 200 with a page that extracts to at least
   * one record, those records are the result and the second strategy is never
   * requested.
   */
  lemma FirstStrategyWins(fetch: Strategy -> Outcome, cs: seq<Container>)
    requires fetch(UrlsToTry[0]) == Response(200, cs)
    requires ExtractAll(cs).Ok? && ExtractAll(cs).value != []
    ensures Tried(UrlsToTry, fetch) == 1
    ensures Found(UrlsToTry, fetch) == ExtractAll(cs).value
  {
  }

  /** When the first strategy yields nothing, the second is requested and decides the result. */
  lemma SecondStrategyIsFallback(fetch: Strategy -> Outcome)
    requires Contribution(fetch(UrlsToTry[0])) == []
    ensures Tried(UrlsToTry, fetch) == 2
    ensures Found(UrlsToTry, fetch) == Contribution(fetch(UrlsToTry[1]))
  {
  }

  /** When every request raises, the result is the empty list (nothing is propagated). */
  lemma AllRequestsRaise(s: seq<Strategy>, fetch: Strategy -> Outcome)
    requires forall j :: 0 <= j < |s| ==> fetch(s[j]) == Raised
    ensures Found(s, fetch) == [] && Tried(s, fetch) == |s|
  {
  }
}
