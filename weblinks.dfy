/** The link filter pipeline and `scraping_weblinks` of app/main.rb. The
    HTTP request to the Qiita API and the HTML extraction of its rendered
    body are one parameter of type `Fetcher`. */
module Weblinks {
  import opened Base
  import opened Uri

  /** A link hash `{text:, url:, weblinks: []}` while it passes through the
      filters (its `weblinks` is always [] there; the crawl's node table
      holds it afterwards). */
  datatype Link = Link(text: string, url: string)

  /** `extract_links(html: get_html(endpoint: e))` for the endpoint `e`: the
      anchors of the rendered article, in document order, each with its
      stripped text and its raw href; nil when either call raises (a
      network, TLS or timeout error of `http.request`, a body that is not
      JSON), which nothing in the script rescues. */
  type Fetcher = string -> Option<seq<Link>>

  const CamoPrefix: string := "https://camo.qiitausercontent.com"
  const FilesSegment: string := "qiita.com/files/"
  const ItemsApi: string := "https://qiita.com/api/v2/items/"

  /** The block of `filter_correct_url`: the link with its url normalised,
      or nil when `remove_query_and_anchor` raises NotHttpUrlError or
      URI::InvalidURIError (the only two it can raise). */
  function NormalizeLink(parse: Parser, l: Link): (r: Option<Link>)
    ensures r.Some? <==> RemoveQueryAndAnchor(parse, l.url).Ok?
    ensures r.Some? ==> r.value.text == l.text && RemoveQueryAndAnchor(parse, l.url) == Ok(r.value.url)
  {
    match RemoveQueryAndAnchor(parse, l.url)
    case Ok(u) => Some(l.(url := u))
    case Err(InvalidUri(_)) => None
    case Err(NotHttpUrl(_)) => None
  }

  function NormalizeLinkFn(parse: Parser): Link -> Option<Link>
  {
    l => NormalizeLink(parse, l)
  }

  /** `filter_correct_url(links:)`: every link whose url normalises
      survives with its text and the normal form, and nothing else does. */
  function FilterCorrectUrl(parse: Parser, links: seq<Link>): (r: seq<Link>)
    ensures |r| <= |links|
    ensures forall l :: l in r ==>
              exists x :: x in links && x.text == l.text && RemoveQueryAndAnchor(parse, x.url) == Ok(l.url)
    ensures forall x :: x in links && RemoveQueryAndAnchor(parse, x.url).Ok? ==>
              Link(x.text, RemoveQueryAndAnchor(parse, x.url).value) in r
  {
    assert forall x :: x in links && RemoveQueryAndAnchor(parse, x.url).Ok? ==>
      NormalizeLinkFn(parse)(x) == Some(Link(x.text, RemoveQueryAndAnchor(parse, x.url).value));
    MapCompact(NormalizeLinkFn(parse), links)
  }

  predicate NotUserContent(l: Link)
  {
    !StartsWith(l.url, CamoPrefix)
  }

  /** `exclude_qiita_user_content_url(links:)`: the links that are not camo
      proxy urls (the order is `Base.FilterPicks`). */
  function ExcludeQiitaUserContentUrl(links: seq<Link>): (r: seq<Link>)
    ensures |r| <= |links|
    ensures forall l :: l in r <==> l in links && !StartsWith(l.url, CamoPrefix)
  {
    Filter(NotUserContent, links)
  }

  predicate NotFilesUrl(l: Link)
  {
    !Contains(l.url, FilesSegment)
  }

  /** `exclude_qiita_files_url(links:)`: the links whose url does not
      contain "qiita.com/files/" (the order is `Base.FilterPicks`). */
  function ExcludeQiitaFilesUrl(links: seq<Link>): (r: seq<Link>)
    ensures |r| <= |links|
    ensures forall l :: l in r <==> l in links && !Contains(l.url, FilesSegment)
  {
    Filter(NotFilesUrl, links)
  }

  /** The three filter stages of `scraping_weblinks`, in their order: no
      survivor is a camo proxy url or a files url, and every survivor is an
      HTTP(S) url. */
  function FilterLinks(parse: Parser, links: seq<Link>): (r: seq<Link>)
    ensures |r| <= |links|
    ensures forall l :: l in r ==> !StartsWith(l.url, CamoPrefix) && !Contains(l.url, FilesSegment)
    ensures forall l :: l in r ==> StartsWith(l.url, "http://") || StartsWith(l.url, "https://")
  {
    ExcludeQiitaFilesUrl(ExcludeQiitaUserContentUrl(FilterCorrectUrl(parse, links)))
  }

  /** Reference definition of the pipeline, one link at a time: a link
      survives exactly when its url normalises and the normal form is
      neither a camo proxy URL nor a Qiita files URL; it survives with that
      normal form as its url and its text unchanged. */
  function KeepLink(parse: Parser, l: Link): (r: Option<Link>)
    ensures r.Some? <==>
              && RemoveQueryAndAnchor(parse, l.url).Ok?
              && !StartsWith(RemoveQueryAndAnchor(parse, l.url).value, CamoPrefix)
              && !Contains(RemoveQueryAndAnchor(parse, l.url).value, FilesSegment)
    ensures r.Some? ==> r.value == Link(l.text, RemoveQueryAndAnchor(parse, l.url).value)
  {
    match RemoveQueryAndAnchor(parse, l.url)
    case Err(_) => None
    case Ok(u) =>
      if StartsWith(u, CamoPrefix) || Contains(u, FilesSegment) then None
      else Some(Link(l.text, u))
  }

  function KeepLinkFn(parse: Parser): Link -> Option<Link>
  {
    l => KeepLink(parse, l)
  }

  /** Running the stages one after another is the same as deciding each
      link on its own with `KeepLink`: a link dropped by one stage never
      reaches the next, and the stages do not reorder. */
  lemma {:induction false} FilterLinksIsKeepLink(parse: Parser, links: seq<Link>)
    ensures FilterLinks(parse, links) == MapCompact(KeepLinkFn(parse), links)
  {
    if links != [] {
      var l := links[0];
      var rest := links[1..];
      FilterLinksIsKeepLink(parse, rest);
      var head := match NormalizeLink(parse, l) case Some(n) => [n] case None => [];
      assert FilterCorrectUrl(parse, links) == head + FilterCorrectUrl(parse, rest);
      FilterConcat(NotUserContent, head, FilterCorrectUrl(parse, rest));
      var head' := Filter(NotUserContent, head);
      FilterConcat(NotFilesUrl, head', ExcludeQiitaUserContentUrl(FilterCorrectUrl(parse, rest)));
      var keep := match KeepLink(parse, l) case Some(k) => [k] case None => [];
      assert Filter(NotFilesUrl, head') == keep;
      assert MapCompact(KeepLinkFn(parse), links) == keep + MapCompact(KeepLinkFn(parse), rest);
    }
  }

  /** The pipeline's output is the order-preserving selection of its input
      through `KeepLink`; no surviving url is a camo proxy URL or a Qiita
      files URL, and every surviving url is the normal form of an input url. */
  lemma FilterLinksSpec(parse: Parser, links: seq<Link>) returns (idx: seq<nat>)
    ensures Picks(FilterLinks(parse, links), links, KeepLinkFn(parse), idx)
    ensures forall l :: l in FilterLinks(parse, links) ==>
              !StartsWith(l.url, CamoPrefix) && !Contains(l.url, FilesSegment)
  {
    FilterLinksIsKeepLink(parse, links);
    idx := MapCompactPicks(KeepLinkFn(parse), links);
  }

  /** What `scraping_weblinks` returns: the links of the page, or an
      exception nothing rescues: `qiita?` on a nil host (NoMethodError), or
      one raised while fetching the article. */
  datatype Scrape = Weblinks(links: seq<Link>) | Crash(error: Error)

  /** Whether `scraping_weblinks(url:)` reaches the API request: the URL
      parses, and its item id can be extracted. */
  predicate FetchesItem(parse: Parser, url: string)
  {
    parse(url).Some? && ExtractQiitaItemId(parse(url).value).Ok?
  }

  /** `"https://qiita.com/api/v2/items/#{item_id}"` */
  function ItemEndpoint(parse: Parser, url: string): (r: string)
    requires FetchesItem(parse, url)
    ensures StartsWith(r, ItemsApi) && r[|ItemsApi|..] == ExtractQiitaItemId(parse(url).value).value
  {
    ItemsApi + ExtractQiitaItemId(parse(url).value).value
  }

  /** `scraping_weblinks(url:)` */
  function ScrapingWeblinks(parse: Parser, fetch: Fetcher, url: string): (r: Scrape)
    ensures parse(url).Some? && parse(url).value.host.None? ==> r == Crash(NoMethodOnNil)
    ensures !FetchesItem(parse, url) && !(parse(url).Some? && parse(url).value.host.None?) ==> r == Weblinks([])
    ensures FetchesItem(parse, url) && fetch(ItemEndpoint(parse, url)).None? ==> r == Crash(FetchRaised)
    ensures FetchesItem(parse, url) && fetch(ItemEndpoint(parse, url)).Some? ==>
              r == Weblinks(FilterLinks(parse, fetch(ItemEndpoint(parse, url)).value))
    ensures r.Crash? ==> r.error == NoMethodOnNil || r.error == FetchRaised
  {
    match parse(url)
    case None => Weblinks([])
    case Some(u) =>
      match u.host
      case None => Crash(NoMethodOnNil)
      case Some(host) =>
        if !IsQiita(host) then Weblinks([])
        else
          match ExtractQiitaItemId(u)
          case Err(_) => Weblinks([])
          case Ok(itemId) =>
            match fetch(ItemsApi + itemId)
            case None => Crash(FetchRaised)
            case Some(links) => Weblinks(FilterLinks(parse, links))
  }

  /** When no item id can be extracted, the result does not depend on what
      the API would return: nothing is fetched. */
  lemma ScrapingWithoutFetch(parse: Parser, fetch: Fetcher, fetch': Fetcher, url: string)
    requires !FetchesItem(parse, url)
    ensures ScrapingWeblinks(parse, fetch, url) == ScrapingWeblinks(parse, fetch', url)
  {
  }

  /** A seed on a foreign host yields a leaf, whatever the API holds. */
  lemma ForeignHostIsLeaf(parse: Parser, fetch: Fetcher, url: string)
    requires parse(url).Some? && parse(url).value.host == Some("example.com")
    ensures ScrapingWeblinks(parse, fetch, url) == Weblinks([])
  {
    assert !EndsWith("example.com", SubdomainSuffix) by {
      assert "example.com"[1..][0] != SubdomainSuffix[0];
    }
  }

  const AliceItem: string := "https://qiita.com/alice/items/abc123"
  const BobItem: string := "https://qiita.com/bob/items/def456"
  const CamoImage: string := "https://camo.qiitausercontent.com/x"

  lemma AliceItemText()
    ensures "https" + "://" + "qiita.com" + "/alice/items/abc123" == AliceItem
  {
  }

  lemma BobItemText()
    ensures "https" + "://" + "qiita.com" + "/bob/items/def456" == BobItem
  {
  }

  /** Bob's article url is already in normal form. */
  lemma BobItemNormal(parse: Parser)
    requires parse(BobItem) == Some(Url("https", Some("qiita.com"), "/bob/items/def456", None, None))
    ensures RemoveQueryAndAnchor(parse, BobItem) == Ok(BobItem)
  {
    BobItemText();
  }

  lemma BobItemKept(parse: Parser)
    requires parse(BobItem) == Some(Url("https", Some("qiita.com"), "/bob/items/def456", None, None))
    ensures KeepLink(parse, Link("B", BobItem)) == Some(Link("B", BobItem))
  {
    BobItemNormal(parse);
    BobItemIsPlain();
  }

  lemma BobItemIsPlain()
    ensures !StartsWith(BobItem, CamoPrefix)
    ensures !Contains(BobItem, FilesSegment)
  {
    assert BobItem[..|CamoPrefix|][8] != CamoPrefix[8];
    assert FilesSegment[12] == 'l';
    assert 'l' !in BobItem;
    MissingCharNotContained(BobItem, FilesSegment, 12);
  }

  lemma CamoImageText()
    ensures "https" + "://" + "camo.qiitausercontent.com" + "/x" == CamoImage
  {
  }

  lemma CamoImageIsCamo()
    ensures StartsWith(CamoImage, CamoPrefix)
  {
    assert CamoImage[..|CamoPrefix|] == CamoPrefix;
  }

  /** The camo image url is already in normal form, and it is a camo url. */
  lemma CamoImageNormal(parse: Parser)
    requires parse(CamoImage) == Some(Url("https", Some("camo.qiitausercontent.com"), "/x", None, None))
    ensures RemoveQueryAndAnchor(parse, CamoImage) == Ok(CamoImage)
    ensures StartsWith(CamoImage, CamoPrefix)
  {
    CamoImageText();
    CamoImageIsCamo();
  }

  lemma CamoImageDropped(parse: Parser)
    requires parse(CamoImage) == Some(Url("https", Some("camo.qiitausercontent.com"), "/x", None, None))
    ensures KeepLink(parse, Link("img", CamoImage)) == None
  {
    CamoImageNormal(parse);
  }

  /** Alice's article url names item abc123. */
  lemma AliceItemFetched(parse: Parser)
    requires parse(AliceItem) == Some(Url("https", Some("qiita.com"), "/alice/items/abc123", None, None))
    ensures FetchesItem(parse, AliceItem)
    ensures ExtractQiitaItemId(parse(AliceItem).value) == Ok("abc123")
  {
    AlicePathText();
    ExtractItemIdOfItemUrl(parse(AliceItem).value, "alice", "abc123", 0);
  }

  /** The article `/alice/items/abc123` whose body links to an article of
      bob and to a camo proxy image: the request goes to the API endpoint of
      item abc123, and only bob's article is kept. */
  lemma ScrapingScenario(parse: Parser, fetch: Fetcher)
    requires parse(AliceItem) == Some(Url("https", Some("qiita.com"), "/alice/items/abc123", None, None))
    requires parse(BobItem) == Some(Url("https", Some("qiita.com"), "/bob/items/def456", None, None))
    requires parse(CamoImage) == Some(Url("https", Some("camo.qiitausercontent.com"), "/x", None, None))
    requires fetch(ItemsApi + "abc123") == Some([Link("B", BobItem), Link("img", CamoImage)])
    ensures ScrapingWeblinks(parse, fetch, AliceItem) == Weblinks([Link("B", BobItem)])
  {
    AliceItemFetched(parse);
    var bob, img := Link("B", BobItem), Link("img", CamoImage);
    BobItemKept(parse);
    CamoImageDropped(parse);
    FilterLinksIsKeepLink(parse, [bob, img]);
    assert [bob, img][1..] == [img];
    assert MapCompact(KeepLinkFn(parse), [img]) == [];
    assert MapCompact(KeepLinkFn(parse), [bob, img]) == [bob];
    assert FilterLinks(parse, fetch(ItemsApi + "abc123").value) == [bob];
  }
}
