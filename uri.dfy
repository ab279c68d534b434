/** URL classification and normalisation of app/main.rb: `qiita?`,
    `qiita_item_path?`, `extract_qiita_item_id` and
    `remove_query_and_anchor`, over the parts of a URL that `URI.parse`
    reports. Parsing itself is a parameter of type `Parser`. */
module Uri {
  import opened Base

  /** The components of a parsed URI that the crawler reads. `host` is nil
      for a URI without an authority (`mailto:x`); `path` is "" where Ruby
      reports an empty or absent path. The scheme is lower-case, as
      `URI.parse` reports it. Port and user information are not carried:
      nothing in the crawler reads them. */
  datatype Url = Url(
    scheme: string,
    host: Option<string>,
    path: string,
    query: Option<string>,
    fragment: Option<string>)

  /** The exceptions the script can raise. */
  datatype Error =
    | InvalidUri(raw: string)          // URI::InvalidURIError from URI.parse
    | NotHttpUrl(url: Url)             // NotHttpUrlError
    | NotQiitaHost(host: string)       // NotQiitaHostError
    | NotQiitaItemPath(path: string)   // NotQiitaItemPathError
    | NoMethodOnNil                    // NoMethodError: `qiita?` given a nil host
    | FetchRaised                      // any exception of `get_html` or `extract_links`

  /** `URI.parse`: a URL record, or nil where it raises URI::InvalidURIError. */
  type Parser = string -> Option<Url>

  const RootDomain: string := "qiita.com"
  const SubdomainSuffix: string := ".qiita.com"

  /** `qiita?(host_name:)` */
  predicate IsQiita(host: string)
  {
    host == RootDomain || EndsWith(host, SubdomainSuffix)
  }

  /** Every subdomain of qiita.com is a Qiita host. */
  lemma SubdomainIsQiita(sub: string)
    ensures IsQiita(sub + SubdomainSuffix)
  {
    var h := sub + SubdomainSuffix;
    assert h[|h| - |SubdomainSuffix|..] == SubdomainSuffix;
  }

  /** A Qiita host is qiita.com itself or some name followed by ".qiita.com". */
  lemma QiitaHostShape(host: string)
    requires IsQiita(host)
    ensures host == RootDomain || host == host[..|host| - |SubdomainSuffix|] + SubdomainSuffix
  {
    if host != RootDomain {
      assert host == host[..|host| - |SubdomainSuffix|] + host[|host| - |SubdomainSuffix|..];
    }
  }

  /** The suffix test is on ".qiita.com", not on "qiita.com". */
  lemma QiitaHostExamples()
    ensures IsQiita("qiita.com")
    ensures IsQiita("foo.qiita.com")
    ensures !IsQiita("xqiita.com")
    ensures !IsQiita("qiita.com.example.org")
  {
    SubdomainIsQiita("foo");
    assert "foo" + SubdomainSuffix == "foo.qiita.com";
    assert "xqiita.com"[0] != SubdomainSuffix[0];
    // its last character is 'g', while ".qiita.com" ends in 'm'
    var far := "qiita.com.example.org";
    assert far[|far| - |SubdomainSuffix|..][|SubdomainSuffix| - 1] != SubdomainSuffix[|SubdomainSuffix| - 1];
  }

  /** The fields of `s` joined with '/'. */
  function Join(fs: seq<string>): string
    requires |fs| > 0
  {
    if |fs| == 1 then fs[0] else fs[0] + "/" + Join(fs[1..])
  }

  lemma Join4(a: string, b: string, c: string, d: string)
    ensures Join([a, b, c, d]) == a + "/" + b + "/" + c + "/" + d
  {
    var fs := [a, b, c, d];
    assert fs[1..] == [b, c, d] && fs[1..][1..] == [c, d] && fs[1..][1..][1..] == [d];
    assert Join([c, d]) == c + "/" + d;
    assert Join([b, c, d]) == b + "/" + (c + "/" + d);
    assert Join(fs) == a + "/" + (b + "/" + (c + "/" + d));
  }

  lemma Join5(a: string, b: string, c: string, d: string, e: string)
    ensures Join([a, b, c, d, e]) == a + "/" + b + "/" + c + "/" + d + "/" + e
  {
    Join4(b, c, d, e);
    assert [a, b, c, d, e][1..] == [b, c, d, e];
  }

  predicate SlashFree(s: string)
  {
    '/' !in s
  }

  /** Every '/'-separated field of `s`, empty ones included (what
      `s.split('/', -1)` returns). */
  function Fields(s: string): (r: seq<string>)
    ensures |r| > 0
    ensures forall i :: 0 <= i < |r| ==> SlashFree(r[i])
  {
    if s == [] then [""]
    else if s[0] == '/' then [""] + Fields(s[1..])
    else
      var rest := Fields(s[1..]);
      [[s[0]] + rest[0]] + rest[1..]
  }

  /** `fs` without its trailing empty strings. */
  function DropTrailingEmpties(fs: seq<string>): (r: seq<string>)
    ensures r <= fs
    ensures r == [] || r[|r| - 1] != ""
    ensures forall i :: |r| <= i < |fs| ==> fs[i] == ""
  {
    if fs == [] then []
    else if fs[|fs| - 1] == "" then DropTrailingEmpties(fs[..|fs| - 1])
    else fs
  }

  /** Ruby's `s.split('/')`: interior and leading empty fields are kept,
      trailing ones are dropped. */
  function Split(s: string): (r: seq<string>)
    ensures forall i :: 0 <= i < |r| ==> SlashFree(r[i])
    ensures r == [] || r[|r| - 1] != ""
  {
    DropTrailingEmpties(Fields(s))
  }

  function Slashes(k: nat): (r: string)
    ensures |r| == k && forall i :: 0 <= i < k ==> r[i] == '/'
  {
    seq(k, _ => '/')
  }

  function Empties(k: nat): (r: seq<string>)
    ensures |r| == k && forall i :: 0 <= i < k ==> r[i] == ""
  {
    seq(k, _ => "")
  }

  lemma {:induction false} JoinHead(x: string, fs: seq<string>)
    requires |fs| > 0
    ensures Join([x + fs[0]] + fs[1..]) == x + Join(fs)
  {
    var gs := [x + fs[0]] + fs[1..];
    if |fs| > 1 {
      assert gs[1..] == fs[1..];
      var j := Join(fs[1..]);
      assert Join(gs) == (x + fs[0]) + "/" + j;
      assert (x + fs[0]) + "/" + j == x + (fs[0] + "/" + j);
    } else {
      assert gs == [x + fs[0]];
    }
  }

  /** Joining the fields of `s` gives `s` back. */
  lemma {:induction false} FieldsJoin(s: string)
    ensures Join(Fields(s)) == s
  {
    if s == [] {
    } else if s[0] == '/' {
      FieldsJoin(s[1..]);
      assert ([""] + Fields(s[1..]))[1..] == Fields(s[1..]);
    } else {
      FieldsJoin(s[1..]);
      JoinHead([s[0]], Fields(s[1..]));
    }
  }

  lemma {:induction false} FieldsOfSlashFree(a: string, t: string)
    requires SlashFree(a)
    ensures Fields(a) == [a]
    ensures Fields(a + "/" + t) == [a] + Fields(t)
  {
    if a == [] {
      assert a + "/" + t == "/" + t;
      assert ("/" + t)[1..] == t;
    } else {
      FieldsOfSlashFree(a[1..], t);
      assert (a + "/" + t)[1..] == a[1..] + "/" + t;
      assert [a[0]] + a[1..] == a;
    }
  }

  /** The fields of a join of '/'-free strings are those strings: `Fields`
      and `Join` are inverse to each other. */
  lemma {:induction false} FieldsOfJoin(fs: seq<string>)
    requires |fs| > 0
    requires forall i :: 0 <= i < |fs| ==> SlashFree(fs[i])
    ensures Fields(Join(fs)) == fs
  {
    FieldsOfSlashFree(fs[0], if |fs| == 1 then "" else Join(fs[1..]));
    if |fs| > 1 {
      FieldsOfJoin(fs[1..]);
      assert [fs[0]] + fs[1..] == fs;
    }
  }

  lemma {:induction false} JoinSnoc(fs: seq<string>)
    requires |fs| > 0
    ensures Join(fs + [""]) == Join(fs) + "/"
  {
    if |fs| > 1 {
      assert (fs + [""])[1..] == fs[1..] + [""];
      JoinSnoc(fs[1..]);
    }
  }

  lemma {:induction false} JoinEmpties(fs: seq<string>, k: nat)
    requires |fs| > 0
    ensures Join(fs + Empties(k)) == Join(fs) + Slashes(k)
  {
    if k > 0 {
      JoinEmpties(fs, k - 1);
      assert fs + Empties(k) == (fs + Empties(k - 1)) + [""];
      JoinSnoc(fs + Empties(k - 1));
      assert Slashes(k) == Slashes(k - 1) + "/";
    } else {
      assert fs + Empties(0) == fs;
    }
  }

  lemma {:induction false} DropEmpties(fs: seq<string>, k: nat)
    requires fs == [] || fs[|fs| - 1] != ""
    ensures DropTrailingEmpties(fs + Empties(k)) == fs
  {
    if k > 0 {
      assert (fs + Empties(k))[..|fs| + k - 1] == fs + Empties(k - 1);
      DropEmpties(fs, k - 1);
    } else {
      assert fs + Empties(0) == fs;
    }
  }

  /** `s` is what `s.split('/')` returns, joined again, followed by the
      trailing slashes that the split dropped. */
  lemma SplitShape(s: string) returns (k: nat)
    ensures Split(s) != [] ==> s == Join(Split(s)) + Slashes(k)
    ensures Split(s) == [] ==> s == Slashes(k)
  {
    var fs := Fields(s);
    var r := Split(s);
    FieldsJoin(s);
    if r != [] {
      k := |fs| - |r|;
      assert fs == r + Empties(k);
      JoinEmpties(r, k);
    } else {
      k := |fs| - 1;
      assert fs == [""] + Empties(k);
      JoinEmpties([""], k);
    }
  }

  /** `qiita_item_path?(url_path:)` */
  predicate IsQiitaItemPath(path: string)
  {
    var segments := Split(path);
    |segments| == 4 && segments[2] == "items"
  }

  /** Item paths ARE the paths of shape `a/b/items/id` followed by any number
      of slashes, with `a`, `b` and `id` free of slashes and `id` non-empty
      (this direction and `ItemPathParts` below). */
  lemma ItemPathShape(a: string, b: string, id: string, k: nat)
    requires SlashFree(a) && SlashFree(b) && SlashFree(id) && id != ""
    ensures Split(a + "/" + b + "/items/" + id + Slashes(k)) == [a, b, "items", id]
    ensures IsQiitaItemPath(a + "/" + b + "/items/" + id + Slashes(k))
  {
    var fs := [a, b, "items", id];
    Join4(a, b, "items", id);
    assert Join(fs) == a + "/" + b + "/items/" + id;
    JoinEmpties(fs, k);
    forall i | 0 <= i < |fs + Empties(k)|
      ensures SlashFree((fs + Empties(k))[i])
    {
      if i >= 4 {
        assert (fs + Empties(k))[i] == "";
      }
    }
    FieldsOfJoin(fs + Empties(k));
    DropEmpties(fs, k);
  }

  lemma ItemPathParts(path: string) returns (a: string, b: string, id: string, k: nat)
    requires IsQiitaItemPath(path)
    ensures SlashFree(a) && SlashFree(b) && SlashFree(id) && id != ""
    ensures path == a + "/" + b + "/items/" + id + Slashes(k)
    ensures id == Split(path)[3]
  {
    var r := Split(path);
    k := SplitShape(path);
    a, b, id := r[0], r[1], r[3];
    assert r == [a, b, "items", id];
    Join4(a, b, "items", id);
    assert Join(r) == a + "/" + b + "/items/" + id;
  }

  /** `extract_qiita_item_id(url:)`: the last path segment of a Qiita item URL. */
  function ExtractQiitaItemId(u: Url): (r: Result<string, Error>)
    // the host is checked first: whatever the path, a foreign host is NotQiitaHost
    ensures u.host.None? ==> r == Err(NoMethodOnNil)
    ensures u.host.Some? && !IsQiita(u.host.value) ==> r == Err(NotQiitaHost(u.host.value))
    ensures u.host.Some? && IsQiita(u.host.value) && !IsQiitaItemPath(u.path) ==>
              r == Err(NotQiitaItemPath(u.path))
    ensures r.Ok? <==> u.host.Some? && IsQiita(u.host.value) && IsQiitaItemPath(u.path)
    ensures r.Ok? ==> r.value == Split(u.path)[3] && r.value != "" && SlashFree(r.value)
  {
    match u.host
    case None => Err(NoMethodOnNil)
    case Some(host) =>
      if !IsQiita(host) then Err(NotQiitaHost(host))
      else if !IsQiitaItemPath(u.path) then Err(NotQiitaItemPath(u.path))
      else
        var segments := Split(u.path);
        Ok(segments[|segments| - 1])
  }

  /** The item id of a path of shape `/user/items/id`, with or without
      trailing slashes, on a Qiita host is `id`. */
  lemma ExtractItemIdOfItemUrl(u: Url, user: string, id: string, k: nat)
    requires u.host.Some? && IsQiita(u.host.value)
    requires SlashFree(user) && SlashFree(id) && id != ""
    requires u.path == "/" + user + "/items/" + id + Slashes(k)
    ensures ExtractQiitaItemId(u) == Ok(id)
  {
    ItemPathShape("", user, id, k);
    assert "" + "/" + user + "/items/" + id + Slashes(k) == u.path;
  }

  lemma AlicePathText()
    ensures "" + "/" + "alice" + "/items/" + "abc123" + Slashes(0) == "/alice/items/abc123"
  {
  }

  lemma AliceSlashPathText()
    ensures "" + "/" + "alice" + "/items/" + "abc123" + Slashes(1) == "/alice/items/abc123/"
  {
  }

  lemma PostsPathText()
    ensures "" + "/" + "alice" + "/" + "posts" + "/" + "abc123" == "/alice/posts/abc123"
  {
  }

  lemma ExtraPathText()
    ensures "" + "/" + "alice" + "/" + "items" + "/" + "abc123" + "/" + "extra" == "/alice/items/abc123/extra"
  {
  }

  lemma ItemPathAccepted()
    ensures IsQiitaItemPath("/alice/items/abc123")
    ensures Split("/alice/items/abc123") == ["", "alice", "items", "abc123"]
  {
    ItemPathShape("", "alice", "abc123", 0);
    AlicePathText();
  }

  /** A trailing slash is tolerated: `split` drops the trailing empty field. */
  lemma ItemPathTrailingSlashAccepted()
    ensures IsQiitaItemPath("/alice/items/abc123/")
  {
    ItemPathShape("", "alice", "abc123", 1);
    AliceSlashPathText();
  }

  lemma ItemPathWrongKindRejected()
    ensures !IsQiitaItemPath("/alice/posts/abc123")
  {
    var posts := ["", "alice", "posts", "abc123"];
    Join4("", "alice", "posts", "abc123");
    PostsPathText();
    FieldsOfJoin(posts);
  }

  lemma ItemPathExtraSegmentRejected()
    ensures !IsQiitaItemPath("/alice/items/abc123/extra")
  {
    var extra := ["", "alice", "items", "abc123", "extra"];
    Join5("", "alice", "items", "abc123", "extra");
    ExtraPathText();
    FieldsOfJoin(extra);
  }

  /** Whether `URI.parse` returned a URI::HTTP (URI::HTTPS is a subclass). */
  predicate IsHttp(u: Url)
  {
    u.scheme == "http" || u.scheme == "https"
  }

  /** `"#{host}"`: a nil host interpolates as "". */
  function HostText(host: Option<string>): string
  {
    match host
    case Some(h) => h
    case None => ""
  }

  /** `"#{url.scheme}://#{url.host}#{url.path}"` */
  function Render(u: Url): string
  {
    u.scheme + "://" + HostText(u.host) + u.path
  }

  /** `remove_query_and_anchor(url:)` */
  function RemoveQueryAndAnchor(parse: Parser, raw: string): (r: Result<string, Error>)
    ensures parse(raw).None? ==> r == Err(InvalidUri(raw))
    ensures parse(raw).Some? && !IsHttp(parse(raw).value) ==> r == Err(NotHttpUrl(parse(raw).value))
    ensures r.Ok? <==> parse(raw).Some? && IsHttp(parse(raw).value)
    ensures r.Ok? ==> StartsWith(r.value, "http://") || StartsWith(r.value, "https://")
  {
    match parse(raw)
    case None => Err(InvalidUri(raw))
    case Some(u) =>
      if !IsHttp(u) then Err(NotHttpUrl(u))
      else Ok(Render(u))
  }

  /** The normalised form depends only on the scheme, the host and the path:
      two URLs that differ in query or fragment normalise alike. */
  lemma NormalFormIgnoresQueryAndFragment(parse: Parser, raw: string, raw': string)
    requires parse(raw).Some? && parse(raw').Some?
    requires parse(raw').value.scheme == parse(raw).value.scheme
    requires parse(raw').value.host == parse(raw).value.host
    requires parse(raw').value.path == parse(raw).value.path
    ensures RemoveQueryAndAnchor(parse, raw').Ok? == RemoveQueryAndAnchor(parse, raw).Ok?
    ensures RemoveQueryAndAnchor(parse, raw).Ok? ==>
              RemoveQueryAndAnchor(parse, raw').value == RemoveQueryAndAnchor(parse, raw).value
  {
  }

  /** `URI.parse` reads the rendering of `u` back with the same scheme, host
      text and path (the property of the URI library the idempotence rests on). */
  predicate ReparsesAs(parse: Parser, u: Url)
  {
    var v := parse(Render(u));
    v.Some? && v.value.scheme == u.scheme && HostText(v.value.host) == HostText(u.host)
      && v.value.path == u.path
  }

  /** Normalising a normalised URL changes nothing. */
  lemma RemoveQueryAndAnchorIdempotent(parse: Parser, raw: string)
    requires RemoveQueryAndAnchor(parse, raw).Ok?
    requires ReparsesAs(parse, parse(raw).value)
    ensures RemoveQueryAndAnchor(parse, RemoveQueryAndAnchor(parse, raw).value)
              == RemoveQueryAndAnchor(parse, raw)
  {
  }
}
