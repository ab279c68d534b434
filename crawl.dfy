/** The breadth-first crawl at the top level of app/main.rb. Ruby's node
    hashes are shared objects: the hash in the queue is the one in its
    parent's `weblinks` array. Here every hash ever created is an entry of a
    node table, and the queue and the `weblinks` arrays hold indices into
    that table. */
module Crawl {
  import opened Base
  import opened Uri
  import opened Weblinks

  /** A node hash `{text:, url:, weblinks:}`; `weblinks` holds the table
      indices of the child hashes. */
  datatype Node = Node(text: string, url: string, weblinks: Option<seq<nat>>)

  /** The loop's state: the node table, the queue of node indices and
      `weblink_set`; `expanded` is a record Ruby does not keep: the indices
      of the nodes handed to `scraping_weblinks`, in the order it was called. */
  datatype State = State(nodes: seq<Node>, queue: seq<nat>, visited: set<string>, expanded: seq<nat>)

  /** `[lo, lo + 1, ..., hi - 1]` */
  function Range(lo: nat, hi: nat): (r: seq<nat>)
    requires lo <= hi
    ensures |r| == hi - lo && forall i :: 0 <= i < |r| ==> r[i] == lo + i
    decreases hi - lo
  {
    if lo == hi then [] else [lo] + Range(lo + 1, hi)
  }

  /** The `weblinks` a node has before it is expanded: nil for the root
      (node 0), [] for a link hash made by `extract_links`. */
  function Unexpanded(i: nat): Option<seq<nat>>
  {
    if i == 0 then None else Some([])
  }

  /** The state before the loop: the root hash `{text: url, url: url,
      weblinks: nil}` alone in the queue, and an empty `weblink_set`. */
  function Start(url: string): (s: State)
    ensures Inv(s)
    ensures |s.nodes| == 1 && s.queue == [0] && s.visited == {} && s.expanded == []
    ensures s.nodes[0].text == url && s.nodes[0].url == url && s.nodes[0].weblinks.None?
  {
    State([Node(url, url, None)], [0], {}, [])
  }

  /** The hashes of the links `scraping_weblinks` returned, each with
      `weblinks: []`. */
  function LinkNodes(links: seq<Link>): (r: seq<Node>)
    ensures |r| == |links|
    ensures forall i :: 0 <= i < |r| ==> r[i] == Node(links[i].text, links[i].url, Some([]))
  {
    seq(|links|, i requires 0 <= i < |links| => Node(links[i].text, links[i].url, Some([])))
  }

  /** The loop's call `scraping_weblinks(url: url)`. The crawl is proved for
      any such function; `CrawlFrom` supplies `Weblinks.ScrapingWeblinks`. */
  type Scraper = string -> Scrape

  function ScrapeWith(parse: Parser, fetch: Fetcher): Scraper
  {
    url => ScrapingWeblinks(parse, fetch, url)
  }

  /** The url of the node at the front of the queue. */
  function HeadUrl(s: State): string
    requires s.queue != [] && s.queue[0] < |s.nodes|
  {
    s.nodes[s.queue[0]].url
  }

  /** The turn that meets a url already in `weblink_set`: the node is
      dropped from the queue and nothing else changes. */
  function Skip(s: State): (r: State)
    requires s.queue != []
    ensures r.nodes == s.nodes && r.visited == s.visited && r.expanded == s.expanded
    ensures r.queue == s.queue[1..]
  {
    s.(queue := s.queue[1..])
  }

  /** The turn that scrapes the node at the front of the queue and gets
      `links`: the node's `weblinks` become the new link hashes, which are
      added to the table and to the back of the queue, in their order; its
      url joins `weblink_set`. No other node changes. */
  function Expand(s: State, links: seq<Link>): (r: State)
    requires s.queue != [] && s.queue[0] < |s.nodes|
    ensures |r.nodes| == |s.nodes| + |links|
    ensures forall i :: 0 <= i < |s.nodes| && i != s.queue[0] ==> r.nodes[i] == s.nodes[i]
    ensures r.nodes[s.queue[0]] == s.nodes[s.queue[0]].(weblinks := Some(Range(|s.nodes|, |s.nodes| + |links|)))
    ensures forall j :: 0 <= j < |links| ==> r.nodes[|s.nodes| + j] == Node(links[j].text, links[j].url, Some([]))
    ensures r.queue == s.queue[1..] + Range(|s.nodes|, |s.nodes| + |links|)
    ensures r.visited == s.visited + {HeadUrl(s)}
    ensures r.expanded == s.expanded + [s.queue[0]]
  {
    var head := s.queue[0];
    var n := |s.nodes|;
    var kids := Range(n, n + |links|);
    var r := State(
      s.nodes[head := s.nodes[head].(weblinks := Some(kids))] + LinkNodes(links),
      s.queue[1..] + kids,
      s.visited + {s.nodes[head].url},
      s.expanded + [head]);
    assert forall j :: 0 <= j < |links| ==> r.nodes[n + j] == LinkNodes(links)[j];
    r
  }

  /** One turn of the `while` loop; the exception `scraping_weblinks`
      raises, which ends the script. */
  function NextState(scrape: Scraper, s: State): (r: Result<State, Error>)
    requires s.queue != [] && s.queue[0] < |s.nodes|
    ensures r.Err? <==> HeadUrl(s) !in s.visited && scrape(HeadUrl(s)).Crash?
    ensures r.Err? ==> r.error == scrape(HeadUrl(s)).error
    ensures HeadUrl(s) in s.visited ==> r == Ok(Skip(s))
    ensures HeadUrl(s) !in s.visited && r.Ok? ==>
              r == Ok(Expand(s, scrape(HeadUrl(s)).links))
  {
    if HeadUrl(s) in s.visited then
      Ok(Skip(s))
    else
      match scrape(HeadUrl(s))
      case Crash(e) => Err(e)
      case Weblinks(links) => Ok(Expand(s, links))
  }

  /** Number of nodes already dequeued. */
  function Dequeued(s: State): int
  {
    |s.nodes| - |s.queue|
  }

  /** The queue holds exactly the nodes not yet dequeued, in the order they
      were created: the crawl is first-in first-out. */
  ghost predicate QueueIsFrontier(nodes: seq<Node>, queue: seq<nat>)
  {
    0 < |nodes| && |queue| <= |nodes| && queue == Range(|nodes| - |queue|, |nodes|)
  }

  /** Nodes from `lo` on (those still in the queue) have not been expanded. */
  ghost predicate PendingUnexpanded(nodes: seq<Node>, lo: int)
  {
    forall i :: 0 <= lo <= i < |nodes| ==> nodes[i].weblinks == Unexpanded(i)
  }

  /** Nodes are expanded in queue order, the root first, and only after
      they have been dequeued (their index is below `lo`). */
  ghost predicate ExpandedInOrder(expanded: seq<nat>, lo: int)
  {
    && (forall k :: 0 <= k < |expanded| ==> expanded[k] < lo)
    && Increasing(expanded)
    && (lo > 0 ==> |expanded| > 0 && expanded[0] == 0)
  }

  /** `scraping_weblinks` has been called at most once per distinct url. */
  ghost predicate ScrapedOncePerUrl(nodes: seq<Node>, expanded: seq<nat>)
  {
    forall k, m :: 0 <= k < m < |expanded| && expanded[k] < |nodes| && expanded[m] < |nodes| ==>
      nodes[expanded[k]].url != nodes[expanded[m]].url
  }

  /** The url of the `k`-th scraped node. */
  ghost predicate ScrapedUrl(nodes: seq<Node>, expanded: seq<nat>, k: int, u: string)
  {
    0 <= k < |expanded| && expanded[k] < |nodes| && nodes[expanded[k]].url == u
  }

  /** `weblink_set` holds exactly the urls that have been scraped. */
  ghost predicate VisitedAreScraped(nodes: seq<Node>, visited: set<string>, expanded: seq<nat>)
  {
    forall u :: u in visited <==> exists k :: ScrapedUrl(nodes, expanded, k, u)
  }

  /** Every dequeued node's url is in `weblink_set`. */
  ghost predicate DequeuedVisited(nodes: seq<Node>, visited: set<string>, lo: int)
  {
    forall i :: 0 <= i < lo && i < |nodes| ==> nodes[i].url in visited
  }

  /** A dequeued node that was not expanded was a duplicate and kept its
      initial `weblinks`. */
  ghost predicate SkippedUnexpanded(nodes: seq<Node>, expanded: seq<nat>, lo: int)
  {
    forall i :: 0 <= i < lo && i < |nodes| && i !in expanded ==> nodes[i].weblinks == Unexpanded(i)
  }

  /** An expanded node has its `weblinks`. */
  ghost predicate ExpandedHaveWeblinks(nodes: seq<Node>, expanded: seq<nat>)
  {
    forall k :: 0 <= k < |expanded| && expanded[k] < |nodes| ==> nodes[expanded[k]].weblinks.Some?
  }

  /** A child is created after its parent: the table is a forest rooted in
      creation order, with no cycle. */
  ghost predicate ChildrenAfterParent(nodes: seq<Node>)
  {
    forall i, c :: 0 <= i < |nodes| && nodes[i].weblinks.Some? && c in nodes[i].weblinks.value ==>
      i < c < |nodes|
  }

  /** The invariant of the crawl loop. */
  ghost predicate Inv(s: State)
  {
    && QueueIsFrontier(s.nodes, s.queue)
    && s.nodes[0].text == s.nodes[0].url
    && PendingUnexpanded(s.nodes, Dequeued(s))
    && ExpandedInOrder(s.expanded, Dequeued(s))
    && ScrapedOncePerUrl(s.nodes, s.expanded)
    && VisitedAreScraped(s.nodes, s.visited, s.expanded)
    && DequeuedVisited(s.nodes, s.visited, Dequeued(s))
    && SkippedUnexpanded(s.nodes, s.expanded, Dequeued(s))
    && ExpandedHaveWeblinks(s.nodes, s.expanded)
    && ChildrenAfterParent(s.nodes)
  }

  /** Node `h`'s `weblinks` are hashes for exactly the links `ls`: one per
      link, in order, each with that link's text and url. */
  ghost predicate HoldsLinks(nodes: seq<Node>, h: int, ls: seq<Link>)
  {
    && 0 <= h < |nodes| && nodes[h].weblinks.Some? && |nodes[h].weblinks.value| == |ls|
    && forall j :: 0 <= j < |ls| ==>
         var c := nodes[h].weblinks.value[j];
         c < |nodes| && nodes[c].text == ls[j].text && nodes[c].url == ls[j].url
  }

  /** Every scraped node holds, as its `weblinks`, what `scraping_weblinks`
      returned for its url. */
  ghost predicate ScrapedAsReturned(scrape: Scraper, nodes: seq<Node>, expanded: seq<nat>)
  {
    forall k :: 0 <= k < |expanded| ==>
      && expanded[k] < |nodes|
      && scrape(nodes[expanded[k]].url).Weblinks?
      && HoldsLinks(nodes, expanded[k], scrape(nodes[expanded[k]].url).links)
  }

  /** `t` is a run of the loop: every state but the last has a node to
      dequeue, and the next one is the turn taken from it. */
  ghost predicate Trace(scrape: Scraper, t: seq<State>)
  {
    forall i :: 0 <= i < |t| - 1 ==>
      t[i].queue != [] && t[i].queue[0] < |t[i].nodes| && NextState(scrape, t[i]) == Ok(t[i + 1])
  }

  lemma RangeTail(lo: nat, hi: nat)
    requires lo < hi
    ensures Range(lo, hi)[1..] == Range(lo + 1, hi)
  {
  }

  lemma RangeConcat(lo: nat, mid: nat, hi: nat)
    requires lo <= mid <= hi
    ensures Range(lo, mid) + Range(mid, hi) == Range(lo, hi)
  {
  }

  /** The front of a frontier queue is the first node not yet dequeued. */
  lemma FrontIsNext(nodes: seq<Node>, queue: seq<nat>)
    requires QueueIsFrontier(nodes, queue) && queue != []
    ensures queue[0] == |nodes| - |queue| && queue[1..] == Range(|nodes| - |queue| + 1, |nodes|)
  {
    RangeTail(|nodes| - |queue|, |nodes|);
  }

  /** Dropping a duplicate keeps the invariant. */
  lemma SkipPreservesInv(s: State)
    requires Inv(s) && s.queue != []
    requires HeadUrl(s) in s.visited
    ensures Inv(Skip(s))
  {
    var s', lo := Skip(s), Dequeued(s);
    FrontIsNext(s.nodes, s.queue);
    assert Dequeued(s') == lo + 1;
    var k :| ScrapedUrl(s.nodes, s.expanded, k, HeadUrl(s));
    assert lo > 0;
    assert lo !in s.expanded;
  }

  lemma ExpandQueue(s: State, links: seq<Link>)
    requires QueueIsFrontier(s.nodes, s.queue) && s.queue != [] && s.nodes[0].text == s.nodes[0].url
    requires PendingUnexpanded(s.nodes, Dequeued(s))
    ensures var s' := Expand(s, links);
      && QueueIsFrontier(s'.nodes, s'.queue) && s'.nodes[0].text == s'.nodes[0].url
      && Dequeued(s') == Dequeued(s) + 1
      && PendingUnexpanded(s'.nodes, Dequeued(s'))
  {
    var s', lo, n, m := Expand(s, links), Dequeued(s), |s.nodes|, |links|;
    FrontIsNext(s.nodes, s.queue);
    RangeConcat(lo + 1, n, n + m);
    forall i | lo + 1 <= i < n + m
      ensures s'.nodes[i].weblinks == Unexpanded(i)
    {
      if i >= n {
        assert s'.nodes[n + (i - n)].weblinks == Some([]);
      }
    }
  }

  lemma ExpandInOrder(s: State, links: seq<Link>)
    requires QueueIsFrontier(s.nodes, s.queue) && s.queue != []
    requires ExpandedInOrder(s.expanded, Dequeued(s))
    ensures ExpandedInOrder(Expand(s, links).expanded, Dequeued(s) + 1)
  {
    FrontIsNext(s.nodes, s.queue);
  }

  lemma ExpandOnce(s: State, links: seq<Link>)
    requires QueueIsFrontier(s.nodes, s.queue) && s.queue != [] && HeadUrl(s) !in s.visited
    requires ExpandedInOrder(s.expanded, Dequeued(s))
    requires ScrapedOncePerUrl(s.nodes, s.expanded) && VisitedAreScraped(s.nodes, s.visited, s.expanded)
    ensures ScrapedOncePerUrl(Expand(s, links).nodes, Expand(s, links).expanded)
  {
    var s', url := Expand(s, links), HeadUrl(s);
    FrontIsNext(s.nodes, s.queue);
    assert forall k :: 0 <= k < |s.expanded| ==>
      s'.expanded[k] == s.expanded[k] && s'.nodes[s.expanded[k]].url == s.nodes[s.expanded[k]].url;
    assert !exists k :: ScrapedUrl(s.nodes, s.expanded, k, url);
    forall k | 0 <= k < |s.expanded|
      ensures s.nodes[s.expanded[k]].url != url
    {
      assert !ScrapedUrl(s.nodes, s.expanded, k, url);
    }
  }

  lemma ExpandVisited(s: State, links: seq<Link>)
    requires QueueIsFrontier(s.nodes, s.queue) && s.queue != []
    requires ExpandedInOrder(s.expanded, Dequeued(s))
    requires VisitedAreScraped(s.nodes, s.visited, s.expanded)
    ensures VisitedAreScraped(Expand(s, links).nodes, Expand(s, links).visited, Expand(s, links).expanded)
  {
    var s', h, url := Expand(s, links), s.queue[0], HeadUrl(s);
    FrontIsNext(s.nodes, s.queue);
    // scraped urls keep their scraping node
    forall k, u | ScrapedUrl(s.nodes, s.expanded, k, u)
      ensures ScrapedUrl(s'.nodes, s'.expanded, k, u)
    {
      assert s'.expanded[k] == s.expanded[k];
    }
    assert ScrapedUrl(s'.nodes, s'.expanded, |s.expanded|, url);
    forall k, u | ScrapedUrl(s'.nodes, s'.expanded, k, u)
      ensures u in s'.visited
    {
      if k < |s.expanded| {
        assert ScrapedUrl(s.nodes, s.expanded, k, u);
      }
    }
  }

  lemma ExpandWeblinks(s: State, links: seq<Link>)
    requires QueueIsFrontier(s.nodes, s.queue) && s.queue != []
    requires PendingUnexpanded(s.nodes, Dequeued(s)) && ExpandedInOrder(s.expanded, Dequeued(s))
    requires DequeuedVisited(s.nodes, s.visited, Dequeued(s))
    requires SkippedUnexpanded(s.nodes, s.expanded, Dequeued(s))
    requires ExpandedHaveWeblinks(s.nodes, s.expanded)
    ensures var s' := Expand(s, links);
      && DequeuedVisited(s'.nodes, s'.visited, Dequeued(s) + 1)
      && SkippedUnexpanded(s'.nodes, s'.expanded, Dequeued(s) + 1)
      && ExpandedHaveWeblinks(s'.nodes, s'.expanded)
  {
    var s', lo := Expand(s, links), Dequeued(s);
    FrontIsNext(s.nodes, s.queue);
    assert lo !in s.expanded;
  }

  lemma ExpandChildren(s: State, links: seq<Link>)
    requires QueueIsFrontier(s.nodes, s.queue) && s.queue != []
    requires ChildrenAfterParent(s.nodes)
    ensures ChildrenAfterParent(Expand(s, links).nodes)
  {
    var s', n, m, h := Expand(s, links), |s.nodes|, |links|, s.queue[0];
    forall i, c | 0 <= i < n + m && s'.nodes[i].weblinks.Some? && c in s'.nodes[i].weblinks.value
      ensures i < c < n + m
    {
      if i == h {
        assert s'.nodes[i].weblinks.value == Range(n, n + m);
      } else if i < n {
        assert s'.nodes[i] == s.nodes[i];
      }
    }
  }

  /** Scraping a node keeps the invariant. */
  lemma ExpandPreservesInv(s: State, links: seq<Link>)
    requires Inv(s) && s.queue != []
    requires HeadUrl(s) !in s.visited
    ensures Inv(Expand(s, links))
  {
    ExpandQueue(s, links);
    ExpandInOrder(s, links);
    ExpandOnce(s, links);
    ExpandVisited(s, links);
    ExpandWeblinks(s, links);
    ExpandChildren(s, links);
  }

  /** Every turn of the loop keeps the invariant. */
  lemma NextStatePreservesInv(scrape: Scraper, s: State)
    requires Inv(s) && s.queue != []
    requires NextState(scrape, s).Ok?
    ensures Inv(NextState(scrape, s).value)
  {
    if HeadUrl(s) in s.visited {
      SkipPreservesInv(s);
    } else {
      ExpandPreservesInv(s, scrape(HeadUrl(s)).links);
    }
  }

  /** A turn that scrapes a node stores what the scrape returned as the
      node's `weblinks`, and leaves every node scraped before as it was. */
  lemma ExpandKeepsScraped(scrape: Scraper, s: State)
    requires QueueIsFrontier(s.nodes, s.queue) && s.queue != []
    requires ExpandedInOrder(s.expanded, Dequeued(s))
    requires ScrapedAsReturned(scrape, s.nodes, s.expanded)
    requires scrape(HeadUrl(s)).Weblinks?
    ensures var s' := Expand(s, scrape(HeadUrl(s)).links);
      ScrapedAsReturned(scrape, s'.nodes, s'.expanded)
  {
    var links := scrape(HeadUrl(s)).links;
    var s', n, h := Expand(s, links), |s.nodes|, s.queue[0];
    FrontIsNext(s.nodes, s.queue);
    forall k | 0 <= k < |s'.expanded|
      ensures s'.expanded[k] < |s'.nodes| && scrape(s'.nodes[s'.expanded[k]].url).Weblinks?
      ensures HoldsLinks(s'.nodes, s'.expanded[k], scrape(s'.nodes[s'.expanded[k]].url).links)
    {
      if k < |s.expanded| {
        var e := s.expanded[k];
        assert s'.expanded[k] == e && e < h;
        assert s'.nodes[e] == s.nodes[e];
        var ls := scrape(s.nodes[e].url).links;
        forall j | 0 <= j < |ls|
          ensures var c := s'.nodes[e].weblinks.value[j];
            c < |s'.nodes| && s'.nodes[c].text == ls[j].text && s'.nodes[c].url == ls[j].url
        {
          var c := s.nodes[e].weblinks.value[j];
          assert s'.nodes[c].text == s.nodes[c].text && s'.nodes[c].url == s.nodes[c].url;
        }
      } else {
        assert s'.expanded[k] == h;
        forall j | 0 <= j < |links|
          ensures var c := s'.nodes[h].weblinks.value[j];
            c < |s'.nodes| && s'.nodes[c].text == links[j].text && s'.nodes[c].url == links[j].url
        {
          assert s'.nodes[h].weblinks.value[j] == n + j;
        }
      }
    }
  }

  /** Every turn keeps every scraped node holding what its scrape returned. */
  lemma NextStateKeepsScraped(scrape: Scraper, s: State)
    requires Inv(s) && s.queue != []
    requires ScrapedAsReturned(scrape, s.nodes, s.expanded)
    requires NextState(scrape, s).Ok?
    ensures ScrapedAsReturned(scrape, NextState(scrape, s).value.nodes, NextState(scrape, s).value.expanded)
  {
    if HeadUrl(s) !in s.visited {
      ExpandKeepsScraped(scrape, s);
    }
  }

  /** A run extended by the turn taken from its last state is a run. */
  lemma TraceExtend(scrape: Scraper, t: seq<State>, x: State)
    requires t != [] && Trace(scrape, t)
    requires t[|t| - 1].queue != [] && t[|t| - 1].queue[0] < |t[|t| - 1].nodes|
    requires NextState(scrape, t[|t| - 1]) == Ok(x)
    ensures Trace(scrape, t + [x])
  {
    var t' := t + [x];
    forall i | 0 <= i < |t'| - 1
      ensures t'[i].queue != [] && t'[i].queue[0] < |t'[i].nodes| && NextState(scrape, t'[i]) == Ok(t'[i + 1])
    {
      assert t'[i] == t[i];
      if i < |t| - 1 {
        assert t'[i + 1] == t[i + 1];
      }
    }
  }

  /** The loop is deterministic: two runs from the same state that both end
      with an empty queue are the same run, so the final table is a function
      of the seed and the scraper. */
  lemma {:induction false} TraceUnique(scrape: Scraper, t: seq<State>, t': seq<State>)
    requires t != [] && t' != [] && Trace(scrape, t) && Trace(scrape, t') && t[0] == t'[0]
    requires t[|t| - 1].queue == [] && t'[|t'| - 1].queue == []
    ensures t == t'
    decreases |t|
  {
    if |t| > 1 && |t'| > 1 {
      assert t[1] == t'[1];
      assert Trace(scrape, t[1..]) by {
        forall i | 0 <= i < |t| - 2
          ensures t[1..][i].queue != [] && t[1..][i].queue[0] < |t[1..][i].nodes|
          ensures NextState(scrape, t[1..][i]) == Ok(t[1..][i + 1])
        {
          assert t[1..][i] == t[i + 1] && t[1..][i + 1] == t[i + 2];
        }
      }
      assert Trace(scrape, t'[1..]) by {
        forall i | 0 <= i < |t'| - 2
          ensures t'[1..][i].queue != [] && t'[1..][i].queue[0] < |t'[1..][i].nodes|
          ensures NextState(scrape, t'[1..][i]) == Ok(t'[1..][i + 1])
        {
          assert t'[1..][i] == t'[i + 1] && t'[1..][i + 1] == t'[i + 2];
        }
      }
      TraceUnique(scrape, t[1..], t'[1..]);
      assert t == [t[0]] + t[1..] && t' == [t'[0]] + t'[1..];
    } else {
      assert |t| == 1 && |t'| == 1;
      assert t == [t[0]] && t' == [t'[0]];
    }
  }

  /** When the queue is empty every node hash has its `weblinks` (no nil is
      left, not even at the root) and its url in `weblink_set`; a node that
      was not scraped, because its url had been met before, is a leaf with
      `weblinks: []`. */
  lemma Completed(s: State)
    requires Inv(s) && s.queue == []
    ensures forall i :: 0 <= i < |s.nodes| ==> s.nodes[i].weblinks.Some?
    ensures forall i :: 0 <= i < |s.nodes| ==> s.nodes[i].url in s.visited
    ensures forall i :: 0 <= i < |s.nodes| && i !in s.expanded ==> i > 0 && s.nodes[i].weblinks == Some([])
  {
    assert s.expanded[0] == 0;
    forall i | 0 <= i < |s.nodes|
      ensures s.nodes[i].weblinks.Some?
    {
      if i in s.expanded {
        var k :| 0 <= k < |s.expanded| && s.expanded[k] == i;
      }
    }
  }

  /** A link the filter pipeline would keep: neither a camo proxy url nor a
      Qiita files url. */
  ghost predicate Clean(l: Link)
  {
    !StartsWith(l.url, CamoPrefix) && !Contains(l.url, FilesSegment)
  }

  /** Every link that `scraping_weblinks` returns is clean. */
  lemma ScrapesAreClean(parse: Parser, fetch: Fetcher)
    ensures forall u, l :: ScrapeWith(parse, fetch)(u).Weblinks? && l in ScrapeWith(parse, fetch)(u).links ==> Clean(l)
  {
    forall u, l | ScrapeWith(parse, fetch)(u).Weblinks? && l in ScrapeWith(parse, fetch)(u).links
      ensures Clean(l)
    {
      assert ScrapeWith(parse, fetch)(u) == ScrapingWeblinks(parse, fetch, u);
    }
  }

  /** With a scraper that returns only clean links, every child of every
      node is clean: a scraped node's children are what its scrape returned,
      and every other node has no child. */
  lemma ChildrenOfCleanScrapes(scrape: Scraper, s: State)
    requires Inv(s) && ScrapedAsReturned(scrape, s.nodes, s.expanded)
    requires forall u, l :: scrape(u).Weblinks? && l in scrape(u).links ==> Clean(l)
    ensures forall i, c :: 0 <= i < |s.nodes| && s.nodes[i].weblinks.Some? && c in s.nodes[i].weblinks.value ==>
              c < |s.nodes| && Clean(Link(s.nodes[c].text, s.nodes[c].url))
  {
    forall i, c | 0 <= i < |s.nodes| && s.nodes[i].weblinks.Some? && c in s.nodes[i].weblinks.value
      ensures c < |s.nodes| && Clean(Link(s.nodes[c].text, s.nodes[c].url))
    {
      if i in s.expanded {
        var k :| 0 <= k < |s.expanded| && s.expanded[k] == i;
        var ls := scrape(s.nodes[i].url).links;
        assert HoldsLinks(s.nodes, i, ls);
        var j :| 0 <= j < |s.nodes[i].weblinks.value| && s.nodes[i].weblinks.value[j] == c;
        assert s.nodes[c].url == ls[j].url && ls[j] in ls;
        assert Clean(ls[j]);
      }
    }
  }

  /** No node of the tree has a camo proxy url or a Qiita files url among
      its children. */
  lemma ChildrenFiltered(parse: Parser, fetch: Fetcher, s: State)
    requires Inv(s) && ScrapedAsReturned(ScrapeWith(parse, fetch), s.nodes, s.expanded)
    ensures forall i, c :: 0 <= i < |s.nodes| && s.nodes[i].weblinks.Some? && c in s.nodes[i].weblinks.value ==>
              c < |s.nodes| && !StartsWith(s.nodes[c].url, CamoPrefix) && !Contains(s.nodes[c].url, FilesSegment)
  {
    ScrapesAreClean(parse, fetch);
    ChildrenOfCleanScrapes(ScrapeWith(parse, fetch), s);
    forall i, c | 0 <= i < |s.nodes| && s.nodes[i].weblinks.Some? && c in s.nodes[i].weblinks.value
      ensures c < |s.nodes| && !StartsWith(s.nodes[c].url, CamoPrefix) && !Contains(s.nodes[c].url, FilesSegment)
    {
      assert Clean(Link(s.nodes[c].text, s.nodes[c].url));
    }
  }

  const AliceSeed: string := "https://qiita.com/alice/items/abc123?ref=x#top"

  /** The seed with a query and a fragment normalises to the article url. */
  lemma SeedNormalizes(parse: Parser)
    requires parse(AliceSeed) == Some(Url("https", Some("qiita.com"), "/alice/items/abc123", Some("ref=x"), Some("top")))
    ensures RemoveQueryAndAnchor(parse, AliceSeed) == Ok(AliceItem)
  {
    AliceItemText();
  }

  /** A finished crawl from alice's article, whose body links to bob's
      article and to a camo image: the root has exactly one child, bob's
      article. */
  lemma CrawlScenario(parse: Parser, fetch: Fetcher, s: State)
    requires parse(AliceItem) == Some(Url("https", Some("qiita.com"), "/alice/items/abc123", None, None))
    requires parse(BobItem) == Some(Url("https", Some("qiita.com"), "/bob/items/def456", None, None))
    requires parse(CamoImage) == Some(Url("https", Some("camo.qiitausercontent.com"), "/x", None, None))
    requires fetch(ItemsApi + "abc123") == Some([Link("B", BobItem), Link("img", CamoImage)])
    requires Inv(s) && s.queue == [] && ScrapedAsReturned(ScrapeWith(parse, fetch), s.nodes, s.expanded)
    requires s.nodes[0].url == AliceItem
    ensures s.nodes[0].weblinks.Some? && |s.nodes[0].weblinks.value| == 1
    ensures var c := s.nodes[0].weblinks.value[0];
      c < |s.nodes| && s.nodes[c].text == "B" && s.nodes[c].url == BobItem
  {
    assert s.expanded[0] == 0;
    ScrapingScenario(parse, fetch);
    assert HoldsLinks(s.nodes, 0, [Link("B", BobItem)]);
  }

  /** A finished crawl from a url on a foreign host: the root is a leaf. */
  lemma ForeignSeedLeaf(parse: Parser, fetch: Fetcher, s: State)
    requires Inv(s) && s.queue == [] && ScrapedAsReturned(ScrapeWith(parse, fetch), s.nodes, s.expanded)
    requires parse(s.nodes[0].url).Some? && parse(s.nodes[0].url).value.host == Some("example.com")
    ensures s.nodes[0].weblinks == Some([])
  {
    assert s.expanded[0] == 0;
    ForeignHostIsLeaf(parse, fetch, s.nodes[0].url);
    assert HoldsLinks(s.nodes, 0, []);
  }

  /** The state the loop body builds field by field is `Expand`'s. */
  lemma ExpandIs(s: State, links: seq<Link>, s': State)
    requires s.queue != [] && s.queue[0] < |s.nodes|
    requires
      var n, h := |s.nodes|, s.queue[0];
      && s'.nodes == s.nodes[h := s.nodes[h].(weblinks := Some(Range(n, n + |links|)))] + LinkNodes(links)
      && s'.queue == s.queue[1..] + Range(n, n + |links|)
      && s'.visited == s.visited + {HeadUrl(s)}
      && s'.expanded == s.expanded + [h]
    ensures s' == Expand(s, links)
  {
  }

  /** Every url scraping can reach from `universe` lies in `universe`. */
  ghost predicate Closed(scrape: Scraper, universe: set<string>)
  {
    forall u :: u in universe ==>
      match scrape(u)
      case Crash(_) => true
      case Weblinks(links) => forall j :: 0 <= j < |links| ==> links[j].url in universe
  }

  ghost predicate UrlsWithin(nodes: seq<Node>, universe: set<string>)
  {
    forall i :: 0 <= i < |nodes| ==> nodes[i].url in universe
  }

  /** Dropping a duplicate leaves the table and `weblink_set` as they are
      and shortens the queue. */
  lemma SkipProgress(s: State)
    requires s.queue != []
    ensures Skip(s).nodes == s.nodes && Skip(s).visited == s.visited && |Skip(s).queue| < |s.queue|
  {
  }

  /** Scraping a url of the universe whose links stay in the universe keeps
      the table inside it, keeps the existing nodes' text and url, and
      visits one more url of the universe. */
  lemma ExpandProgress(s: State, links: seq<Link>, universe: set<string>)
    requires s.queue != [] && s.queue[0] < |s.nodes| && HeadUrl(s) !in s.visited
    requires UrlsWithin(s.nodes, universe)
    requires forall j :: 0 <= j < |links| ==> links[j].url in universe
    ensures UrlsWithin(Expand(s, links).nodes, universe)
    ensures forall i :: 0 <= i < |s.nodes| ==>
              Expand(s, links).nodes[i].text == s.nodes[i].text && Expand(s, links).nodes[i].url == s.nodes[i].url
    ensures s.visited < Expand(s, links).visited
    ensures |universe - Expand(s, links).visited| < |universe - s.visited|
  {
    var s', n := Expand(s, links), |s.nodes|;
    assert HeadUrl(s) in universe;
    forall i | 0 <= i < |s'.nodes|
      ensures s'.nodes[i].url in universe
    {
      if i >= n {
        assert s'.nodes[n + (i - n)].url == links[i - n].url;
      }
    }
    var before := universe - s.visited;
    assert HeadUrl(s) in before;
    assert universe - s'.visited == before - {HeadUrl(s)};
    assert |before - {HeadUrl(s)}| == |before| - 1;
  }

  /** What one turn of the loop guarantees the crawl: the invariant holds,
      the table stays inside a closed universe, existing nodes keep their
      text and url, `weblink_set` only grows, and either the queue shrinks
      with `weblink_set` unchanged or a url of the universe not yet visited
      is visited. */
  lemma NextStateProgress(scrape: Scraper, s: State, universe: set<string>)
    requires Inv(s) && s.queue != []
    requires Closed(scrape, universe) && UrlsWithin(s.nodes, universe)
    requires NextState(scrape, s).Ok?
    ensures var s' := NextState(scrape, s).value;
      && Inv(s') && UrlsWithin(s'.nodes, universe)
      && s.visited <= s'.visited && |s.nodes| <= |s'.nodes|
      && (forall i :: 0 <= i < |s.nodes| ==> s'.nodes[i].text == s.nodes[i].text && s'.nodes[i].url == s.nodes[i].url)
      && ((s'.visited == s.visited && |s'.queue| < |s.queue|) || |universe - s'.visited| < |universe - s.visited|)
  {
    if HeadUrl(s) in s.visited {
      SkipPreservesInv(s);
      SkipProgress(s);
    } else {
      var links := scrape(HeadUrl(s)).links;
      assert HeadUrl(s) in universe;
      ExpandPreservesInv(s, links);
      ExpandProgress(s, links, universe);
    }
  }

  /** Existing nodes keep their text and url from `nodes` to `nodes'`. */
  ghost predicate KeepsLinks(nodes: seq<Node>, nodes': seq<Node>)
  {
    |nodes| <= |nodes'| &&
    forall i :: 0 <= i < |nodes| ==> nodes'[i].text == nodes[i].text && nodes'[i].url == nodes[i].url
  }

  /** What the loop knows after running `trace` from `s0` to `s`: the
      invariant holds, scraped nodes hold their scrapes, the table stays in
      the universe, and the table and `weblink_set` have only grown. */
  ghost predicate Reached(scrape: Scraper, universe: set<string>, s0: State, trace: seq<State>, s: State)
  {
    && Inv(s) && ScrapedAsReturned(scrape, s.nodes, s.expanded) && UrlsWithin(s.nodes, universe)
    && trace != [] && Trace(scrape, trace) && trace[0] == s0 && trace[|trace| - 1] == s
    && s0.visited <= s.visited && KeepsLinks(s0.nodes, s.nodes)
  }

  /** The turn taken from `s` raises `e`. */
  ghost predicate Raised(scrape: Scraper, s: State, e: Error)
  {
    s.queue != [] && s.queue[0] < |s.nodes| && NextState(scrape, s) == Err(e)
  }

  /** Before the first turn the loop knows the invariants of its start. */
  lemma ReachedStart(scrape: Scraper, universe: set<string>, s: State)
    requires Inv(s) && ScrapedAsReturned(scrape, s.nodes, s.expanded) && UrlsWithin(s.nodes, universe)
    ensures Reached(scrape, universe, s, [s], s)
  {
  }

  lemma KeepsLinksTrans(a: seq<Node>, b: seq<Node>, c: seq<Node>)
    requires KeepsLinks(a, b) && KeepsLinks(b, c)
    ensures KeepsLinks(a, c)
  {
  }

  /** A turn from `s` to `s'` keeps both invariants and the universe bound,
      keeps existing nodes' text and url, and only grows `weblink_set`. */
  lemma TurnKeeps(scrape: Scraper, universe: set<string>, s: State, s': State)
    requires Inv(s) && ScrapedAsReturned(scrape, s.nodes, s.expanded) && UrlsWithin(s.nodes, universe)
    requires Closed(scrape, universe) && s.queue != [] && NextState(scrape, s) == Ok(s')
    ensures Inv(s') && ScrapedAsReturned(scrape, s'.nodes, s'.expanded) && UrlsWithin(s'.nodes, universe)
    ensures s.visited <= s'.visited && KeepsLinks(s.nodes, s'.nodes)
    ensures (s'.visited == s.visited && |s'.queue| < |s.queue|) || |universe - s'.visited| < |universe - s.visited|
  {
    NextStateProgress(scrape, s, universe);
    NextStateKeepsScraped(scrape, s);
  }

  /** One turn of the loop, from `s` to `s'`, extends what it knows by one
      state, and either shortens the queue with `weblink_set` unchanged or
      visits a url of the universe not visited before. */
  lemma ReachedNext(scrape: Scraper, universe: set<string>, s0: State, trace: seq<State>, s: State, s': State)
    requires Reached(scrape, universe, s0, trace, s) && Closed(scrape, universe)
    requires s.queue != [] && NextState(scrape, s) == Ok(s')
    ensures Reached(scrape, universe, s0, trace + [s'], s')
    ensures (s'.visited == s.visited && |s'.queue| < |s.queue|) || |universe - s'.visited| < |universe - s.visited|
  {
    TurnKeeps(scrape, universe, s, s');
    TraceExtend(scrape, trace, s');
    KeepsLinksTrans(s0.nodes, s.nodes, s'.nodes);
    assert (trace + [s'])[0] == s0;
  }

  /** The crawl of app/main.rb: the loop's state, updated in place. */
  class Crawler {
    const scrape: Scraper
    var nodes: seq<Node>
    var queue: seq<nat>
    var visited: set<string>
    ghost var expanded: seq<nat>

    ghost function Current(): State
      reads this
    {
      State(nodes, queue, visited, expanded)
    }

    /** `weblinktree_root_node = {text: url, url: url, weblinks: nil}`,
        `queue = [weblinktree_root_node]`, `weblink_set = Set[]` */
    constructor (scrape: Scraper, url: string)
      ensures this.scrape == scrape
      ensures Current() == Start(url) && Inv(Current())
    {
      this.scrape := scrape;
      nodes := [Node(url, url, None)];
      queue := [0];
      visited := {};
      expanded := [];
    }

    /** The body of the `while` loop; the exception of `scraping_weblinks`
        when it raises. */
    method Step() returns (crash: Option<Error>)
      requires queue != [] && queue[0] < |nodes|
      modifies this
      ensures crash.None? <==> NextState(scrape, old(Current())).Ok?
      ensures crash.None? ==> NextState(scrape, old(Current())) == Ok(Current())
      ensures crash.Some? ==> NextState(scrape, old(Current())) == Err(crash.value)
      ensures crash.Some? ==> nodes == old(nodes) && visited == old(visited) + {HeadUrl(old(Current()))}
    {
      var node := queue[0];
      queue := queue[1..];
      var url := nodes[node].url;
      if url in visited {
        crash := None;
        return;
      }
      visited := visited + {url};
      var scraped := scrape(url);
      if scraped.Crash? {
        crash := Some(scraped.error);
        return;
      }
      var n := |nodes|;
      var kids := Range(n, n + |scraped.links|);
      nodes := nodes[node := nodes[node].(weblinks := Some(kids))] + LinkNodes(scraped.links);
      queue := queue + kids;
      expanded := expanded + [node];
      crash := None;
      ExpandIs(old(Current()), scraped.links, Current());
    }

    /** `while queue.size > 0 do ... end`, on a link graph whose urls lie in
        a finite `universe` closed under scraping. `trace` is the run the
        loop takes: it starts from the state on entry, and ends either in
        the state on exit, with an empty queue, or in the state whose turn
        raised `crash`. Nodes already in the table keep their text and url. */
    method Run(ghost universe: set<string>) returns (crash: Option<Error>, ghost trace: seq<State>)
      requires Inv(Current()) && ScrapedAsReturned(scrape, nodes, expanded)
      requires Closed(scrape, universe) && UrlsWithin(nodes, universe)
      modifies this
      ensures trace != [] && Trace(scrape, trace) && trace[0] == old(Current())
      ensures crash.None? ==> queue == [] && Reached(scrape, universe, old(Current()), trace, Current())
      ensures crash.Some? ==> Raised(scrape, trace[|trace| - 1], crash.value)
      ensures old(visited) <= visited && KeepsLinks(old(nodes), nodes)
    {
      crash := None;
      ghost var start := Current();
      trace := [start];
      ReachedStart(scrape, universe, start);
      while queue != []
        invariant crash.None? && Reached(scrape, universe, start, trace, Current())
        decreases |universe - visited|, |queue|
      {
        ghost var before := Current();
        crash := Step();
        if crash.Some? {
          return;
        }
        ReachedNext(scrape, universe, start, trace, before, Current());
        trace := trace + [Current()];
      }
    }
  }

  /** Lines 142-163 for a given seed: normalise it (a failure ends the
      script), build the root, and crawl. Returns the node table; `trace`
      is the run of the loop from the root alone in the queue. */
  method CrawlFrom(parse: Parser, fetch: Fetcher, seed: string, ghost universe: set<string>)
    returns (r: Result<seq<Node>, Error>, ghost trace: seq<State>)
    requires Closed(ScrapeWith(parse, fetch), universe)
    requires RemoveQueryAndAnchor(parse, seed).Ok? ==> RemoveQueryAndAnchor(parse, seed).value in universe
    ensures RemoveQueryAndAnchor(parse, seed).Err? ==> r == Err(RemoveQueryAndAnchor(parse, seed).error)
    ensures RemoveQueryAndAnchor(parse, seed).Ok? ==>
              && trace != [] && Trace(ScrapeWith(parse, fetch), trace)
              && trace[0] == Start(RemoveQueryAndAnchor(parse, seed).value)
    ensures RemoveQueryAndAnchor(parse, seed).Ok? && r.Err? ==>
              && (r.error == NoMethodOnNil || r.error == FetchRaised)
              && var last := trace[|trace| - 1];
                 last.queue != [] && last.queue[0] < |last.nodes|
                 && NextState(ScrapeWith(parse, fetch), last) == Err(r.error)
    ensures r.Ok? ==>
              && trace != [] && trace[|trace| - 1].nodes == r.value && trace[|trace| - 1].queue == []
              && Inv(trace[|trace| - 1])
              && ScrapedAsReturned(ScrapeWith(parse, fetch), r.value, trace[|trace| - 1].expanded)
              && r.value[0].url == RemoveQueryAndAnchor(parse, seed).value
              && r.value[0].text == r.value[0].url
              && (forall i :: 0 <= i < |r.value| ==> r.value[i].weblinks.Some?)
  {
    var url := RemoveQueryAndAnchor(parse, seed);
    if url.Err? {
      r := Err(url.error);
      trace := [];
      return;
    }
    var crawler := new Crawler(ScrapeWith(parse, fetch), url.value);
    var crash;
    crash, trace := crawler.Run(universe);
    if crash.Some? {
      r := Err(crash.value);
      ghost var last := trace[|trace| - 1];
      assert ScrapeWith(parse, fetch)(HeadUrl(last)) == ScrapingWeblinks(parse, fetch, HeadUrl(last));
    } else {
      r := Ok(crawler.nodes);
      Completed(crawler.Current());
    }
  }
}
