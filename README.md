# qiita-linktree-ruby — a verified model of the link-tree crawler

The script `app/main.rb` starts from a Qiita article URL and crawls breadth-first. For every Qiita article it meets, it asks the Qiita API for the rendered body of the article. It keeps the links of that body that are ordinary HTTP(S) URLs, with their query and fragment removed, except camo image-proxy URLs and `qiita.com/files/` attachments. It then crawls those links in turn, never scraping a URL twice, and prints the resulting tree of `{text, url, weblinks}` hashes.

This project models that script in Dafny, in four modules:

- `Base` (`base.dfy`): `nil`-or-value and raise-or-return (`Option`, `Result`), and `String#start_with?`, `end_with?` and `include?`. It also holds `Array#filter` and `map { ... }.compact` as generic functions, with the proof that each is an order-preserving selection of its input that keeps every occurrence.
- `Uri` (`uri.dfy`): the URL record that `URI.parse` reports (scheme, host or nil, path, query, fragment). It models Ruby's `String#split('/')` exactly: interior empty fields are kept and trailing ones dropped. On top of these it models `qiita?`, `qiita_item_path?`, `extract_qiita_item_id` and `remove_query_and_anchor`. `URI.parse` itself is a parameter, a `Parser` that returns a `Url` or nil where the library raises `URI::InvalidURIError`.
- `Weblinks` (`weblinks.dfy`): `filter_correct_url`, `exclude_qiita_user_content_url`, `exclude_qiita_files_url` and `scraping_weblinks`. The HTTP request and the HTML anchor extraction together are a parameter `Fetcher`. It maps the API endpoint to the anchors of the article as `{text, url}` records, in document order, or to nil when the request or the JSON parsing raises.
- `Crawl` (`crawl.dfy`): the top-level `while` loop. Ruby's node hashes are shared mutable objects: the hash in the queue is the same object that sits in its parent's `weblinks` array. The model keeps every hash in a node table, and the queue and each `weblinks` list hold indices into that table.
  - `NextState` is one turn of the loop as a function on the state (table, queue, `weblink_set`). It is built from the two cases `Skip` (the url is already visited) and `Expand` (the node is scraped).
  - `Inv` is the loop invariant, and lemmas prove that every turn keeps it. `ScrapedAsReturned` is a second invariant: every scraped node holds, as its `weblinks`, the links its scrape returned.
  - `Trace` is a run of the loop, each state the turn taken from the one before. The loop is deterministic (`TraceUnique`), so a run that ends with an empty queue fixes the final table.
  - The crawl is proved for any `Scraper`, a function from a url to what `scraping_weblinks` returns. `ScrapeWith` builds the real one from a `Parser` and a `Fetcher`.
  - The class `Crawler` holds the same state in mutable fields. `Step` is the loop body, proved equal to `NextState`. `Run` is the `while` loop. It carries both invariants and returns the run it took.
  - `CrawlFrom` runs the whole script for a given seed. Lemmas about finished crawls cover three properties. No node has a camo or files child. Alice's article yields exactly bob's article as the root's one child. A seed on a foreign host yields a leaf.

The script sleeps after the duplicate check and before `weblink_set.add`, so a duplicate url costs no delay. The delay itself is not modelled.

A Ruby exception that nothing rescues ends the script; the model returns it as an error value. On the crawl path there are two kinds:

- `qiita?` called with a nil host (`NoMethodError`), when a queued url parses to a URI without a host;
- an exception raised while fetching an article: a network, TLS or timeout error of `http.request` (app/main.rb:57), or a body that `JSON.parse` rejects (app/main.rb:59). The model has one error for all of these, `FetchRaised`.

## Model

| member | source | states |
|---|---|---|
| Base.StartsWith | app/main.rb:97 | `s.start_with?(prefix)`: the first `|prefix|` characters of `s` are `prefix` |
| Base.EndsWith | app/main.rb:26 | `s.end_with?(suffix)`: the last `|suffix|` characters of `s` are `suffix` |
| Base.Contains | app/main.rb:103 | `s.include?(t)`: `t` occurs in `s` at some offset |
| Uri.IsQiita | app/main.rb:23-31 | `qiita?`: the host is `qiita.com` or ends with `.qiita.com`; its properties are SubdomainIsQiita, QiitaHostShape and QiitaHostExamples |
| Uri.QiitaHostExamples | app/main.rb:23-31 | `qiita.com` and `foo.qiita.com` are Qiita hosts; `xqiita.com` and `qiita.com.example.org` are not |
| Uri.SubdomainIsQiita | app/main.rb:23-31 | every name followed by `.qiita.com` is a Qiita host |
| Uri.QiitaHostShape | app/main.rb:23-31 | a Qiita host is `qiita.com` itself or some prefix followed by `.qiita.com`, the converse of SubdomainIsQiita |
| Uri.Split | app/main.rb:35 | `split('/')` yields slash-free fields whose last one, if any, is non-empty |
| Uri.SplitShape | app/main.rb:35 | the string is the join of its `split('/')` fields followed by some number of slashes, the trailing empties `split` drops |
| Uri.FieldsOfJoin | app/main.rb:35 | splitting on every `/` is the inverse of joining slash-free fields with `/` |
| Uri.IsQiitaItemPath | app/main.rb:33-37 | `qiita_item_path?`: `split('/')` gives four fields, the third of them `items`; characterised by ItemPathShape and ItemPathParts |
| Uri.ItemPathShape | app/main.rb:33-37 | every `a/b/items/id` path with slash-free `a`, `b`, `id`, a non-empty `id` and any number of trailing slashes splits into `[a, b, "items", id]` and is an item path |
| Uri.ItemPathParts | app/main.rb:33-37 | conversely every item path has that shape, with `id` its fourth segment |
| Uri.ItemPathAccepted | app/main.rb:33-37 | `/alice/items/abc123` splits into `["", "alice", "items", "abc123"]` and is accepted |
| Uri.ItemPathTrailingSlashAccepted | app/main.rb:33-37 | `/alice/items/abc123/` is accepted, because the trailing empty field is dropped |
| Uri.ItemPathWrongKindRejected | app/main.rb:33-37 | `/alice/posts/abc123` is rejected |
| Uri.ItemPathExtraSegmentRejected | app/main.rb:33-37 | `/alice/items/abc123/extra` is rejected |
| Uri.ExtractQiitaItemId | app/main.rb:39-47 | the host is checked before the path: a foreign host raises NotQiitaHost whatever the path, a nil host raises NoMethodError, and a Qiita host with a non-item path raises NotQiitaItemPath. The result is Ok exactly for a Qiita host with an item path, and is then the fourth segment, non-empty and slash-free |
| Uri.ExtractItemIdOfItemUrl | app/main.rb:39-47 | on a Qiita host, `/user/items/id` with any number of trailing slashes yields exactly `id` |
| Uri.IsHttp | app/main.rb:135 | `kind_of?(URI::HTTP)`: the scheme is `http` or `https` (URI::HTTPS is a subclass of URI::HTTP) |
| Uri.Render | app/main.rb:138 | `"#{url.scheme}://#{url.host}#{url.path}"`, a nil host interpolating as the empty string; query and fragment are not read |
| Uri.RemoveQueryAndAnchor | app/main.rb:133-139 | an unparsable url raises InvalidURIError, and a parsed non-HTTP(S) url raises NotHttpUrl carrying the parsed url. The result is Ok exactly for HTTP(S) urls and then starts with `http://` or `https://` |
| Uri.NormalFormIgnoresQueryAndFragment | app/main.rb:133-139 | two urls with equal scheme, host and path normalise alike: query and fragment never reach the result |
| Uri.RemoveQueryAndAnchorIdempotent | app/main.rb:133-139 | normalising a normalised url gives it back, provided parsing reads the rendered url back with the same scheme, host and path |
| Base.Filter | app/main.rb:95-105 | `filter` keeps an element exactly when it is in the input and satisfies the block, and returns no more elements than the input; order and multiplicity are FilterPicks |
| Base.FilterConcat | app/main.rb:95-105 | `filter` distributes over concatenation |
| Base.FilterIsMapCompact | app/main.rb:95-105 | `filter` equals `map/compact` with the element itself for an accepted element and nil for a rejected one |
| Base.FilterPicks | app/main.rb:95-105 | `filter` keeps every occurrence of an accepted element and drops every rejected one, in input order: the output is the input at increasing positions that are exactly the accepted ones |
| Base.MapCompact | app/main.rb:80-93 | `map/compact` yields exactly the non-nil images of the input elements |
| Base.MapCompactPicks | app/main.rb:80-93 | `map/compact` keeps every non-nil image and drops every nil one, in input order: there are increasing positions of the input, covering every position with a non-nil image, whose images are the output |
| Weblinks.NormalizeLink | app/main.rb:80-93 | a link survives normalisation exactly when `remove_query_and_anchor` returns. Both exceptions it can raise drop the link rather than propagate. A survivor keeps its text and gets the normal form as url |
| Weblinks.FilterCorrectUrl | app/main.rb:80-93 | every output link comes from an input link with the same text whose url normalises to the output url, and every input link whose url normalises appears in the output with its text and the normal form; no more links than the input |
| Weblinks.ExcludeQiitaUserContentUrl | app/main.rb:95-99 | a link is kept exactly when it is in the input and its url does not start with `https://camo.qiitausercontent.com` |
| Weblinks.ExcludeQiitaFilesUrl | app/main.rb:101-105 | a link is kept exactly when it is in the input and its url does not contain `qiita.com/files/` |
| Weblinks.FilterLinks | app/main.rb:124-126 | no link the three stages keep is a camo url or a files url, and every one is an `http://` or `https://` url |
| Weblinks.KeepLink | app/main.rb:80-105 | reference decision for one link: it is kept exactly when its url normalises to a form that neither starts with the camo prefix nor contains `qiita.com/files/`, and it is kept with that form and its text unchanged |
| Weblinks.FilterLinksIsKeepLink | app/main.rb:124-126 | running the three stages in their order equals deciding every link independently with KeepLink |
| Weblinks.FilterLinksSpec | app/main.rb:80-105 | the pipeline's output is an order-preserving selection of its input through KeepLink, and no surviving url starts with `https://camo.qiitausercontent.com` or contains `qiita.com/files/` |
| Weblinks.ItemEndpoint | app/main.rb:121 | the endpoint is `https://qiita.com/api/v2/items/` followed by the extracted item id |
| Weblinks.ScrapingWeblinks | app/main.rb:109-131 | a url that parses without a host crashes with NoMethodError. A url that does not parse, is not on a Qiita host or yields no item id gives `[]`. Otherwise the endpoint `https://qiita.com/api/v2/items/` plus the item id is fetched: a failing fetch crashes with FetchRaised, and a successful one gives the filtered links. No other crash occurs |
| Weblinks.ScrapingWithoutFetch | app/main.rb:109-131 | when no item id can be extracted the result does not depend on the fetcher: no endpoint is requested |
| Weblinks.ForeignHostIsLeaf | app/main.rb:109-131 | a url on `example.com` yields `[]` whatever the API returns |
| Weblinks.BobItemIsPlain | app/main.rb:95-105 | `https://qiita.com/bob/items/def456` is neither a camo url nor a files url |
| Weblinks.BobItemNormal | app/main.rb:133-139 | `https://qiita.com/bob/items/def456`, once parsed, normalises to itself |
| Weblinks.BobItemKept | app/main.rb:80-105 | a link to that article, already in normal form, is kept unchanged |
| Weblinks.CamoImageNormal | app/main.rb:95-99 | `https://camo.qiitausercontent.com/x` normalises to itself and starts with the camo prefix |
| Weblinks.CamoImageDropped | app/main.rb:95-99 | a link to a camo proxy image is dropped |
| Weblinks.AliceItemFetched | app/main.rb:39-47 | `https://qiita.com/alice/items/abc123` names item `abc123`, so scraping it reaches the API request |
| Weblinks.ScrapingScenario | app/main.rb:109-131 | scraping `/alice/items/abc123`, whose body links to an article of bob and to a camo image, requests item `abc123` and returns only bob's article |
| Crawl.Start | app/main.rb:144-150 | the table holds only the root, with `text == url` and `weblinks == nil`; the queue holds it alone, `weblink_set` is empty, nothing has been scraped, and the invariant holds |
| Crawl.LinkNodes | app/main.rb:71-77 | every link becomes a node with its text and url and `weblinks: []`, one per link, in order |
| Crawl.Skip | app/main.rb:152-157 | a dequeued node whose url was visited leaves the queue; the table, `weblink_set` and the scrape record are unchanged |
| Crawl.Expand | app/main.rb:158-162 | an expanded node's `weblinks` become exactly the nodes made from the scraping result. Those nodes join the table and the back of the queue, in their order, and the url joins `weblink_set`. No other node changes |
| Crawl.NextState | app/main.rb:152-162 | one turn is `Skip` when the url is in `weblink_set` and `Expand` with the scraping result otherwise. It fails exactly when that scrape raises, and then with the scrape's exception |
| Crawl.FrontIsNext | app/main.rb:152-153 | on a FIFO queue the dequeued node is the first one not yet dequeued, and the rest of the queue is the nodes after it in creation order |
| Crawl.SkipPreservesInv | app/main.rb:152-157 | skipping a duplicate keeps the loop invariant |
| Crawl.ExpandQueue | app/main.rb:158-162 | after an expansion the queue is still exactly the not-yet-dequeued nodes in creation order (FIFO), all unexpanded |
| Crawl.ExpandInOrder | app/main.rb:158-162 | nodes are scraped in queue order, the root first |
| Crawl.ExpandOnce | app/main.rb:158-162 | after an expansion no two scraped nodes share a url |
| Crawl.ExpandVisited | app/main.rb:158-162 | after an expansion `weblink_set` is still exactly the set of urls scraped so far |
| Crawl.ExpandWeblinks | app/main.rb:158-162 | after an expansion every dequeued url is visited, nodes skipped as duplicates keep their initial `weblinks`, and every scraped node has its `weblinks` set |
| Crawl.ExpandChildren | app/main.rb:158-162 | after an expansion every child index in a node's `weblinks` is greater than the node's own index and within the table |
| Crawl.ExpandPreservesInv | app/main.rb:158-162 | scraping a node keeps the loop invariant |
| Crawl.NextStatePreservesInv | app/main.rb:152-162 | every turn of the loop keeps the invariant: FIFO queue, at most one scrape per distinct url, `weblink_set` equal to the scraped urls, children after parents |
| Crawl.Inv | app/main.rb:152-163 | the loop invariant: the queue is exactly the not-yet-dequeued nodes in creation order; those are unexpanded; nodes are scraped in order, root first, at most once per url; `weblink_set` is exactly the scraped urls; dequeued duplicates keep their initial `weblinks`; children come after their parent |
| Crawl.ExpandKeepsScraped | app/main.rb:158-162 | after an expansion the scraped node holds, one per link and in order, nodes with the text and url of the links its scrape returned, and every node scraped before still holds its own |
| Crawl.NextStateKeepsScraped | app/main.rb:152-162 | every turn keeps ScrapedAsReturned: each scraped node's `weblinks` are the links `scraping_weblinks` returned for its url |
| Crawl.TraceExtend | app/main.rb:152-163 | a run of the loop followed by the turn taken from its last state is a run |
| Crawl.TraceUnique | app/main.rb:152-163 | two runs from the same state that both end with an empty queue are equal: the loop's result is determined by the seed and the scraper |
| Crawl.TurnKeeps | app/main.rb:152-162 | one turn keeps both invariants and the universe bound, keeps existing nodes' text and url, only grows `weblink_set`, and either shortens the queue with `weblink_set` unchanged or visits a new url of the universe |
| Crawl.ReachedNext | app/main.rb:152-163 | a turn taken after a run extends the run by that turn and keeps everything the loop knows: both invariants, the universe bound, the growth of the table and `weblink_set`; and it shrinks the termination measure |
| Crawl.Completed | app/main.rb:152-163 | when the queue is empty every node, the root included, has its `weblinks` set and its url in `weblink_set`; a node that was never scraped is not the root and is a leaf with `weblinks: []` |
| Crawl.SkipProgress | app/main.rb:152-157 | a skip leaves the table and `weblink_set` unchanged and shortens the queue |
| Crawl.ExpandProgress | app/main.rb:158-162 | an expansion keeps the existing nodes' text and url and adds one new url to `weblink_set` |
| Crawl.NextStateProgress | app/main.rb:152-162 | a turn keeps the invariant and existing nodes' text and url, and `weblink_set` only grows. Either the queue shrinks with `weblink_set` unchanged, or one url of the universe not visited before is visited |
| Crawl.Crawler.constructor | app/main.rb:144-150 | the fields hold the initial state, which satisfies the loop invariant |
| Crawl.Crawler.Step | app/main.rb:153-162 | the loop body changes the fields exactly as `NextState` does, and raises exactly when it does, with the same exception; on a crash the table is unchanged and the url has already joined `weblink_set` |
| Crawl.ExpandIs | app/main.rb:158-162 | the state the loop body builds field by field, in Ruby's order of updates, is `Expand`'s |
| Crawl.Crawler.Run | app/main.rb:152-163 | the returned run starts from the state on entry. Without a crash it ends in the state on exit: empty queue, both invariants. With a crash, the turn from its last state raises that exception. `weblink_set` only grows, and nodes already in the table keep their text and url |
| Crawl.CrawlFrom | app/main.rb:141-163 | a seed that fails normalisation ends the script with that error. Otherwise the returned run starts from the root alone in the queue. Either its next turn raises NoMethodError or FetchRaised, which is the result, or it ends in the returned table. That table has an empty queue and both invariants, and its root has the normalised seed as text and url. Every node has its `weblinks`, and every scraped node holds what `scraping_weblinks` returned for its url |
| Crawl.ScrapesAreClean | app/main.rb:109-131 | no link `scraping_weblinks` returns, for any url, is a camo url or contains `qiita.com/files/` |
| Crawl.ChildrenOfCleanScrapes | app/main.rb:158-162 | for a scraper that returns only such clean links, every child of every node of a crawl keeping both invariants is clean: scraped nodes hold their scrape, all other nodes have no child |
| Crawl.ChildrenFiltered | app/main.rb:158-162 | in a crawl that keeps both invariants no node has a child whose url is a camo url or contains `qiita.com/files/` |
| Crawl.SeedNormalizes | app/main.rb:141-142 | the seed `https://qiita.com/alice/items/abc123?ref=x#top` normalises to `https://qiita.com/alice/items/abc123` |
| Crawl.CrawlScenario | app/main.rb:144-163 | a finished crawl from alice's article, whose body links to bob's article and to a camo image, leaves the root with exactly one child, with text `B` and bob's url |
| Crawl.ForeignSeedLeaf | app/main.rb:128-161 | a finished crawl whose root url is on `example.com` leaves the root a leaf with `weblinks: []` |

## Left out

- `get_html` (app/main.rb:49-66) is I/O: the request, the TLS setup, the `QIITA_ACCESS_TOKEN` header, the JSON parsing and the STDERR rate-limit diagnostics. Together with `extract_links` it is the `Fetcher` parameter. Its non-200 branch returns nil. Whether `extract_links` then raises or returns some anchors is left to the fetcher, which answers nil (a crash) or a list of links.
- `extract_links` (app/main.rb:68-78) uses the Oga HTML parser and XPath, a foreign library. The fetcher returns the anchors directly. `strip` of the text and an anchor without `href` (a nil url) are not modelled.
- The internals of `URI.parse` are not modelled. It is the `Parser` parameter. Ports and user information are not carried in `Url`, since the code never reads them, and a nil path is represented as `""` (Ruby interpolates nil as `""` too).
- `sleep 0.2` (app/main.rb:158) is timing only.
- Reading `ARGV[0]` with its default seed (app/main.rb:141) is not modelled: `CrawlFrom` takes the seed as a parameter. The YAML dump of the tree to stdout (app/main.rb:165) is not modelled either; `CrawlFrom` returns the node table.
- The error-class definitions (app/main.rb:7-21) appear only as the variants of `Uri.Error`.
- Crawl.Crawler.Run: proved to terminate only when the urls reachable by scraping lie in a finite set closed under scraping (the ghost `universe`). The Ruby loop has no such bound, and on an infinite link graph it does not end.
- Crawl.CrawlFrom: an error result stands for the exception that ends the script, `NoMethodOnNil` or `FetchRaised`. The partial tree at that moment is not returned. The run up to the failing turn is (`trace`).
- Weblinks.Fetcher: the exceptions of `get_html` and `extract_links` are not told apart; all of them are `FetchRaised`.
- The scrape record `expanded` (the table indices of scraped nodes, in order) exists only in the model, as a ghost field. It is what makes "at most one scrape per distinct url" statable.
