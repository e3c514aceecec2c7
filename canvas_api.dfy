/**
 * The Canvas REST client core (src/canvas_api/mod.rs): URL construction, the
 * parsing of the `Link` response header into a `ResponsePagination`, and the
 * `while let Some(url) = next` pagination loop shared by every listing.
 */
module CanvasApi {
  import opened Wrappers

  /** Body of a non-2xx response: `{errors: [{message}]}`. */
  datatype ApiError = ApiError(messages: seq<string>)

  /** `canvas_api::Error`: a well-formed API error, or a transport/decoding failure. */
  datatype Error = Api(detail: ApiError) | Transport(description: string)

  // ---------------------------------------------------------------------------
  // Client::build_url

  /** The client: only the host takes part in the modelled logic. */
  datatype Client = Client(host: string)

  /** `strip_suffix("/").unwrap()` succeeds on the host. */
  predicate HostOk(host: string) {
    |host| > 0 && host[|host| - 1] == '/'
  }

  /** `strip_prefix("/").unwrap()` succeeds on the path. */
  predicate PathOk(path: string) {
    |path| > 0 && path[0] == '/'
  }

  /**
   * `build_url`: the host without its trailing `/`, a `/`, and the path without
   * its leading `/`. Both unwraps panic otherwise, hence the preconditions.
   */
  function BuildUrl(host: string, path: string): (r: string)
    requires HostOk(host) && PathOk(path)
    ensures |r| == |host| + |path| - 1
    ensures r[..|host|] == host
    ensures r[|host| - 1..] == path
  {
    host[..|host| - 1] + "/" + path[1..]
  }

  /** A path written as `/` and a tail is joined to the host as host and tail. */
  lemma BuildUrlRooted(host: string, tail: string)
    requires HostOk(host)
    ensures PathOk("/" + tail) && BuildUrl(host, "/" + tail) == host + tail
  {
    assert ("/" + tail)[1..] == tail;
    assert host[..|host| - 1] + "/" == host;
  }

  /** The course collection's path starts with `/`, then the rest. */
  lemma CoursesPrefix(rest: string)
    ensures "/api/v1/courses/" + rest == "/" + ("api/v1/courses/" + rest)
  {
    assert "/api/v1/courses/"[1..] == "api/v1/courses/";
    assert ("/api/v1/courses/" + rest)[1..] == "/api/v1/courses/"[1..] + rest;
  }

  /** One more segment after a rooted path keeps it rooted. */
  lemma RootedAppend(x: string, y: string)
    ensures "/" + x + y == "/" + (x + y)
  {
  }

  /** `format!("{}", n)` for an integer. */
  function Decimal(n: int): string {
    if n < 0 then "-" + Digits(-n) else Digits(n)
  }

  function Digits(n: nat): string
    decreases n
  {
    if n < 10 then [DigitChar(n)] else Digits(n / 10) + [DigitChar(n % 10)]
  }

  function DigitChar(d: nat): char
    requires d < 10
  {
    "0123456789"[d]
  }

  // ---------------------------------------------------------------------------
  // ResponsePagination and From<&HeaderValue>

  datatype ResponsePagination = ResponsePagination(
    current: string,
    prev: Option<string>,
    next: Option<string>,
    first: string,
    last: string)

  /** The fold's initial accumulator. */
  const NoPagination := ResponsePagination("", None, None, "", "")

  /** One capture of the header regex: group 1 is the URL, group 2 the relation name. */
  datatype Link = Link(url: string, rel: string)

  /** The fold's step: the relation names one field, which takes the URL. */
  function ApplyLink(acc: ResponsePagination, link: Link): ResponsePagination {
    match link.rel
    case "current" => acc.(current := link.url)
    case "prev" => acc.(prev := Some(link.url))
    case "next" => acc.(next := Some(link.url))
    case "first" => acc.(first := link.url)
    case "last" => acc.(last := link.url)
    case _ => acc
  }

  /** `Iterator::fold` over the captures, left to right. */
  function FoldLinks(acc: ResponsePagination, links: seq<Link>): ResponsePagination
    decreases |links|
  {
    if links == [] then acc else FoldLinks(ApplyLink(acc, links[0]), links[1..])
  }

  /** The literal text between the two groups of `<(.+?)>; rel="(.+?)"`. */
  const RelOpen: string := ">; rel=\""

  /**
   * Index of the first `"` of `s` when no newline comes before it: the end of a
   * lazy `.+?"` whose first character has already been consumed.
   */
  function QuoteIndex(s: string): (r: Option<nat>)
    ensures r.Some? ==> r.value < |s| && s[r.value] == '\"'
    ensures r.Some? ==> forall t :: 0 <= t < r.value ==> s[t] != '\"' && s[t] != '\n'
    ensures r.None? ==> forall t :: 0 <= t < |s| && s[t] == '\"' ==> exists u :: 0 <= u < t && s[u] == '\n'
  {
    if s == [] then None
    else if s[0] == '\"' then Some(0)
    else if s[0] == '\n' then None
    else match QuoteIndex(s[1..])
      case Some(k) => Some(k + 1)
      case None => None
  }

  /**
   * Group 2 and the closing quote, matched against `t` (the text after `rel="`):
   * the shortest non-empty run without a newline that is followed by `"`.
   * Returns the relation name and the text after the closing quote.
   */
  function RelMatch(t: string): Option<(string, string)> {
    if t == [] || t[0] == '\n' then None
    else match QuoteIndex(t[1..])
      case Some(k) => Some((t[..k + 1], t[k + 2..]))
      case None => None
  }

  /** `u[j..]` starts with `>; rel="` and group 2 matches after it. */
  predicate CloseAt(u: string, j: nat) {
    j + |RelOpen| <= |u| && u[j..j + |RelOpen|] == RelOpen && RelMatch(u[j + |RelOpen|..]).Some?
  }

  /**
   * Group 1, matched against `u` (the text after `<`): the smallest `j >= 1`
   * such that `u[..j]` has no newline and the rest of the pattern matches at `j`.
   * The search starts at `j`, all of `u[..j]` already checked.
   */
  function UrlEndFrom(u: string, j: nat): (r: Option<nat>)
    requires 1 <= j
    ensures r.Some? ==> j <= r.value && CloseAt(u, r.value)
    decreases |u| - j
  {
    if j >= |u| then None
    else if CloseAt(u, j) then Some(j)
    else if u[j] == '\n' then None
    else UrlEndFrom(u, j + 1)
  }

  /** The whole pattern after its leading `<`: the link and the text after the match. */
  function LinkMatch(u: string): (r: Option<(Link, string)>)
    ensures r.Some? ==> |r.value.1| < |u|
  {
    if u == [] || u[0] == '\n' then None
    else match UrlEndFrom(u, 1)
      case None => None
      case Some(j) =>
        var (rel, rest) := RelMatch(u[j + |RelOpen|..]).value;
        Some((Link(u[..j], rel), rest))
  }

  /**
   * `captures_iter`: the leftmost match, then the search goes on after it;
   * a position where no match starts is skipped.
   */
  function Captures(s: string): seq<Link>
    decreases |s|
  {
    if s == [] then []
    else if s[0] == '<' && LinkMatch(s[1..]).Some? then
      var (link, rest) := LinkMatch(s[1..]).value;
      [link] + Captures(rest)
    else Captures(s[1..])
  }

  /** `ResponsePagination::from(&HeaderValue)`. */
  function PaginationFromHeader(header: string): ResponsePagination {
    FoldLinks(NoPagination, Captures(header))
  }

  // ---------------------------------------------------------------------------
  // Reference definitions for the Link header

  /** A pair the header format can carry unambiguously: URL without `>`, name without `"`. */
  predicate WellFormed(link: Link) {
    |link.url| > 0 && |link.rel| > 0 &&
    (forall i :: 0 <= i < |link.url| ==> link.url[i] != '>' && link.url[i] != '\n') &&
    (forall i :: 0 <= i < |link.rel| ==> link.rel[i] != '\"' && link.rel[i] != '\n')
  }

  /** One `<url>; rel="name"` element of the header. */
  function LinkText(link: Link): string {
    "<" + link.url + RelOpen + link.rel + "\""
  }

  /** Text between elements that cannot start a match: it holds no `<`. */
  predicate Separator(sep: string) {
    forall i :: 0 <= i < |sep| ==> sep[i] != '<'
  }

  /**
   * The header a server sends for `links`: `seps[0]`, the first element,
   * `seps[1]`, the second element, and so on, ending with `seps[|links|]`.
   * RFC 8288, section 3, separates elements by a comma with optional
   * whitespace around it, as in `[", "]`; any text without `<` is allowed here.
   */
  function LinkHeader(links: seq<Link>, seps: seq<string>): string
    requires |seps| == |links| + 1
    decreases |links|
  {
    if links == [] then seps[0]
    else seps[0] + LinkText(links[0]) + LinkHeader(links[1..], seps[1..])
  }

  /** The URL of the last pair whose relation is `rel`, if any. */
  function LastWith(links: seq<Link>, rel: string): (r: Option<string>)
    decreases |links|
  {
    if links == [] then None
    else if links[|links| - 1].rel == rel then Some(links[|links| - 1].url)
    else LastWith(links[..|links| - 1], rel)
  }

  /** The relation names the fold recognises. */
  predicate Known(rel: string) {
    rel == "current" || rel == "prev" || rel == "next" || rel == "first" || rel == "last"
  }

  // ---------------------------------------------------------------------------
  // Lemmas about the Link header

  lemma {:induction false} FoldLinksAppend(acc: ResponsePagination, a: seq<Link>, b: seq<Link>)
    ensures FoldLinks(acc, a + b) == FoldLinks(FoldLinks(acc, a), b)
    decreases |a|
  {
    if a == [] {
      assert a + b == b;
    } else {
      assert (a + b)[1..] == a[1..] + b;
      FoldLinksAppend(ApplyLink(acc, a[0]), a[1..], b);
    }
  }

  /**
   * Each field ends up holding the URL of the last pair naming it; a field that
   * no pair names keeps the accumulator's value.
   */
  lemma {:induction false} FoldLinksFields(acc: ResponsePagination, links: seq<Link>)
    ensures var r := FoldLinks(acc, links);
      && r.current == LastWith(links, "current").GetOr(acc.current)
      && r.prev == (if LastWith(links, "prev").Some? then LastWith(links, "prev") else acc.prev)
      && r.next == (if LastWith(links, "next").Some? then LastWith(links, "next") else acc.next)
      && r.first == LastWith(links, "first").GetOr(acc.first)
      && r.last == LastWith(links, "last").GetOr(acc.last)
    decreases |links|
  {
    if links != [] {
      var init, l := links[..|links| - 1], links[|links| - 1];
      FoldLinksSnoc(acc, links);
      FoldLinksFields(acc, init);
      ApplyLinkFields(FoldLinks(acc, init), l);
    }
  }

  lemma FoldLinksSnoc(acc: ResponsePagination, links: seq<Link>)
    requires links != []
    ensures FoldLinks(acc, links) == ApplyLink(FoldLinks(acc, links[..|links| - 1]), links[|links| - 1])
  {
    var init, l := links[..|links| - 1], links[|links| - 1];
    assert links == init + [l];
    FoldLinksAppend(acc, init, [l]);
    assert FoldLinks(FoldLinks(acc, init), [l]) == ApplyLink(FoldLinks(acc, init), l);
  }

  /** One step of the fold, field by field. */
  lemma ApplyLinkFields(p: ResponsePagination, l: Link)
    ensures var r := ApplyLink(p, l);
      && r.current == (if l.rel == "current" then l.url else p.current)
      && r.prev == (if l.rel == "prev" then Some(l.url) else p.prev)
      && r.next == (if l.rel == "next" then Some(l.url) else p.next)
      && r.first == (if l.rel == "first" then l.url else p.first)
      && r.last == (if l.rel == "last" then l.url else p.last)
  {
  }

  /** `LastWith` is the last matching pair: both directions. */
  lemma {:induction false} LastWithIsLast(links: seq<Link>, rel: string, url: string)
    ensures LastWith(links, rel) == Some(url) <==>
      exists i :: 0 <= i < |links| && links[i] == Link(url, rel) &&
        forall j :: i < j < |links| ==> links[j].rel != rel
  {
    if LastWith(links, rel) == Some(url) {
      LastWithFound(links, rel, url);
    }
    forall i | 0 <= i < |links| && links[i] == Link(url, rel) && forall j :: i < j < |links| ==> links[j].rel != rel
      ensures LastWith(links, rel) == Some(url)
    {
      LastWithOfLast(links, rel, url, i);
    }
  }

  lemma {:induction false} LastWithFound(links: seq<Link>, rel: string, url: string)
    requires LastWith(links, rel) == Some(url)
    ensures exists i :: 0 <= i < |links| && links[i] == Link(url, rel) &&
                        forall j :: i < j < |links| ==> links[j].rel != rel
    decreases |links|
  {
    var n := |links| - 1;
    if links[n].rel == rel {
      assert links[n] == Link(url, rel);
    } else {
      var init := links[..n];
      LastWithFound(init, rel, url);
      var i :| 0 <= i < |init| && init[i] == Link(url, rel) &&
        forall j :: i < j < |init| ==> init[j].rel != rel;
      assert links[i] == Link(url, rel);
      assert forall j :: i < j < n ==> links[j] == init[j];
    }
  }

  lemma {:induction false} LastWithOfLast(links: seq<Link>, rel: string, url: string, i: nat)
    requires i < |links| && links[i] == Link(url, rel)
    requires forall j :: i < j < |links| ==> links[j].rel != rel
    ensures LastWith(links, rel) == Some(url)
    decreases |links|
  {
    var n := |links| - 1;
    if i < n {
      var init := links[..n];
      assert init[i] == links[i];
      assert forall j :: i < j < n ==> init[j] == links[j];
      LastWithOfLast(init, rel, url, i);
    }
  }

  /** No pair with this relation: `LastWith` is `None`, and conversely. */
  lemma {:induction false} LastWithAbsent(links: seq<Link>, rel: string)
    ensures LastWith(links, rel).None? <==> forall i :: 0 <= i < |links| ==> links[i].rel != rel
    decreases |links|
  {
    if links != [] {
      var init := links[..|links| - 1];
      LastWithAbsent(init, rel);
      assert forall i :: 0 <= i < |init| ==> init[i] == links[i];
    }
  }

  /** A pair with an unrecognised relation leaves the result unchanged, wherever it stands. */
  lemma UnknownRelIgnored(acc: ResponsePagination, a: seq<Link>, link: Link, b: seq<Link>)
    requires !Known(link.rel)
    ensures FoldLinks(acc, a + [link] + b) == FoldLinks(acc, a + b)
  {
    FoldLinksAppend(acc, a + [link], b);
    FoldLinksAppend(acc, a, [link]);
    FoldLinksAppend(acc, a, b);
    assert FoldLinks(FoldLinks(acc, a), [link]) == ApplyLink(FoldLinks(acc, a), link);
  }

  /**
   * The lazy group 1 stops at the first position from which the rest of the
   * pattern matches, provided no character before it is a newline or `>`.
   */
  lemma {:induction false} UrlEndAtFirstClose(u: string, n: nat, j: nat)
    requires 1 <= j <= n < |u|
    requires forall k :: j <= k < n ==> u[k] != '>' && u[k] != '\n'
    requires CloseAt(u, n)
    ensures UrlEndFrom(u, j) == Some(n)
    decreases n - j
  {
    if j < n {
      assert !CloseAt(u, j) by {
        if j + |RelOpen| <= |u| {
          assert u[j..j + |RelOpen|][0] == u[j];
        }
      }
      UrlEndAtFirstClose(u, n, j + 1);
    }
  }

  /** For a URL without `>`, the pattern after `<` matches only at the URL's end. */
  lemma UrlEndAtUrlEnd(link: Link, rest: string, j: nat)
    requires WellFormed(link)
    requires 1 <= j <= |link.url|
    ensures var u := link.url + RelOpen + link.rel + "\"" + rest;
      UrlEndFrom(u, j) == Some(|link.url|)
  {
    var u := link.url + RelOpen + link.rel + "\"" + rest;
    var n := |link.url|;
    ElementParts(link, rest);
    RelMatchOfRel(link, rest);
    assert CloseAt(u, n);
    forall k | j <= k < n ensures u[k] != '>' && u[k] != '\n' {
      assert u[k] == u[..n][k];
    }
    UrlEndAtFirstClose(u, n, j);
  }

  /** Group 2 takes exactly a relation name without `"`. */
  lemma RelMatchOfRel(link: Link, rest: string)
    requires WellFormed(link)
    ensures RelMatch(link.rel + "\"" + rest) == Some((link.rel, rest))
  {
    var t := link.rel + "\"" + rest;
    var k := |link.rel| - 1;
    var q := QuoteIndex(t[1..]);
    assert t[1..][k] == '\"';
    assert forall i :: 0 <= i < k ==> t[1..][i] == link.rel[i + 1];
    assert q == Some(k);
    assert t[..k + 1] == link.rel;
    assert t[k + 2..] == rest;
  }

  /** The first element of a header is captured as written, and the scan resumes after it. */
  lemma LinkMatchOfText(link: Link, rest: string)
    requires WellFormed(link)
    ensures LinkMatch((LinkText(link) + rest)[1..]) == Some((link, rest))
  {
    var u := link.url + RelOpen + link.rel + "\"" + rest;
    ElementParts(link, rest);
    UrlEndAtUrlEnd(link, rest, 1);
    RelMatchOfRel(link, rest);
    assert u[0] == link.url[0];
  }

  /** The text after an element's `<`, cut where the two groups start and end. */
  lemma ElementParts(link: Link, rest: string)
    ensures var u := link.url + RelOpen + link.rel + "\"" + rest;
      && (LinkText(link) + rest)[1..] == u
      && |u| >= |link.url| + |RelOpen|
      && u[..|link.url|] == link.url
      && u[|link.url|..|link.url| + |RelOpen|] == RelOpen
      && u[|link.url| + |RelOpen|..] == link.rel + "\"" + rest
  {
    var u := link.url + RelOpen + link.rel + "\"" + rest;
    assert u == link.url + (RelOpen + (link.rel + "\"" + rest));
    assert LinkText(link) + rest == "<" + u;
  }

  /** Text without `<` starts no match and is skipped. */
  lemma {:induction false} CapturesSkipSeparator(sep: string, tail: string)
    requires Separator(sep)
    ensures Captures(sep + tail) == Captures(tail)
    decreases |sep|
  {
    if sep != [] {
      var x := sep + tail;
      assert x[0] == sep[0] && x[1..] == sep[1..] + tail;
      CapturesSkipOne(x);
      CapturesSkipSeparator(sep[1..], tail);
    } else {
      assert sep + tail == tail;
    }
  }

  /** A position that does not hold `<` is skipped. */
  lemma CapturesSkipOne(x: string)
    requires x != [] && x[0] != '<'
    ensures Captures(x) == Captures(x[1..])
  {
  }

  /** A well-formed element is captured as written, and the scan resumes right after it. */
  lemma CapturesAfterElement(link: Link, rest: string)
    requires WellFormed(link)
    ensures Captures(LinkText(link) + rest) == [link] + Captures(rest)
  {
    LinkMatchOfText(link, rest);
    assert (LinkText(link) + rest)[0] == '<';
  }

  /** Parsing a header built from well-formed pairs gives back exactly those pairs, in order. */
  lemma {:induction false} CapturesOfHeader(links: seq<Link>, seps: seq<string>)
    requires |seps| == |links| + 1
    requires forall i :: 0 <= i < |links| ==> WellFormed(links[i])
    requires forall i :: 0 <= i < |seps| ==> Separator(seps[i])
    ensures Captures(LinkHeader(links, seps)) == links
    decreases |links|
  {
    if links == [] {
      CapturesSkipSeparator(seps[0], "");
      assert seps[0] + "" == seps[0];
    } else {
      var rest := LinkHeader(links[1..], seps[1..]);
      assert seps[0] + LinkText(links[0]) + rest == seps[0] + (LinkText(links[0]) + rest);
      CapturesSkipSeparator(seps[0], LinkText(links[0]) + rest);
      CapturesAfterElement(links[0], rest);
      CapturesOfHeader(links[1..], seps[1..]);
      assert links == [links[0]] + links[1..];
    }
  }

  /** The header's pairs set the fields: each field takes the last URL its relation names. */
  lemma HeaderFields(links: seq<Link>, seps: seq<string>)
    requires |seps| == |links| + 1
    requires forall i :: 0 <= i < |links| ==> WellFormed(links[i])
    requires forall i :: 0 <= i < |seps| ==> Separator(seps[i])
    ensures var p := PaginationFromHeader(LinkHeader(links, seps));
      && p.current == LastWith(links, "current").GetOr("")
      && p.prev == LastWith(links, "prev")
      && p.next == LastWith(links, "next")
      && p.first == LastWith(links, "first").GetOr("")
      && p.last == LastWith(links, "last").GetOr("")
  {
    CapturesOfHeader(links, seps);
    FoldLinksFields(NoPagination, links);
  }

  /** `<A>; rel="next", <B>; rel="prev"` sets next and prev and nothing else. */
  lemma NextPrevHeader(a: string, b: string)
    requires WellFormed(Link(a, "next")) && WellFormed(Link(b, "prev"))
    ensures var p := PaginationFromHeader("<" + a + ">; rel=\"next\", <" + b + ">; rel=\"prev\"");
      p == ResponsePagination("", Some(b), Some(a), "", "")
  {
    var links := [Link(a, "next"), Link(b, "prev")];
    NextPrevText(a, b);
    HeaderFields(links, ["", ", ", ""]);
    assert links[..1] == [Link(a, "next")];
    assert LastWith(links, "prev") == Some(b);
    assert LastWith(links, "next") == Some(a);
    LastWithAbsent(links, "current");
    LastWithAbsent(links, "first");
    LastWithAbsent(links, "last");
  }

  lemma NextPrevText(a: string, b: string)
    ensures LinkHeader([Link(a, "next"), Link(b, "prev")], ["", ", ", ""])
      == "<" + a + ">; rel=\"next\", <" + b + ">; rel=\"prev\""
  {
    var links := [Link(a, "next"), Link(b, "prev")];
    var seps := ["", ", ", ""];
    assert links[1..] == [Link(b, "prev")] && links[1..][1..] == [];
    assert seps[1..] == [", ", ""] && seps[1..][1..] == [""];
    var second := LinkHeader([Link(b, "prev")], [", ", ""]);
    assert LinkHeader([], [""]) == "";
    assert second == ", " + LinkText(Link(b, "prev")) + LinkHeader([], [""]);
    assert LinkHeader(links, seps) == "" + LinkText(Link(a, "next")) + second;
  }

  // ---------------------------------------------------------------------------
  // make_json_request and the pagination loop

  /** A decoded 200 response: the JSON body and the raw `Link` header, if sent. */
  datatype Response<T> = Response(body: T, link: Option<string>)

  /**
   * A listing endpoint as the server answers `make_json_request`: for each URL,
   * one page of records with its `Link` header, or an error.
   */
  type Endpoint<T> = string -> Result<Response<seq<T>>, Error>

  /** `pagination.and_then(|p| p.next)`. */
  function NextUrl<T>(r: Response<T>): Option<string> {
    match r.link
    case None => None
    case Some(h) => PaginationFromHeader(h).next
  }

  /** Requests starting at `url` stop (no `next`, or an error) within `n` pages. */
  predicate EndsWithin<T>(ep: Endpoint<T>, url: string, n: nat)
    decreases n
  {
    n > 0 &&
    match ep(url)
    case Err(_) => true
    case Ok(r) => NextUrl(r).None? || EndsWithin(ep, NextUrl(r).value, n - 1)
  }

  /** The server's chain of `next` links from `url` is finite. */
  ghost predicate Finite<T>(ep: Endpoint<T>, url: string) {
    exists n: nat :: EndsWithin(ep, url, n)
  }

  /** Every record wrapped as a success item. */
  function Oks<T>(records: seq<T>): (r: seq<Result<T, Error>>)
    ensures |r| == |records|
    ensures forall i :: 0 <= i < |records| ==> r[i] == Ok(records[i])
  {
    if records == [] then [] else [Ok(records[0])] + Oks(records[1..])
  }

  /** The items the stream yields from `url` on, given `n` pages of fuel. */
  function Listing<T>(ep: Endpoint<T>, url: string, n: nat): seq<Result<T, Error>>
    requires EndsWithin(ep, url, n)
    decreases n
  {
    match ep(url)
    case Err(e) => [Err(e)]
    case Ok(r) =>
      Oks(r.body) + match NextUrl(r) { case None => [] case Some(u) => Listing(ep, u, n - 1) }
  }

  lemma {:induction false} ListingFuel<T>(ep: Endpoint<T>, url: string, n: nat, m: nat)
    requires EndsWithin(ep, url, n) && EndsWithin(ep, url, m)
    ensures Listing(ep, url, n) == Listing(ep, url, m)
    decreases n
  {
    match ep(url)
    case Err(_) =>
    case Ok(r) =>
      if NextUrl(r).Some? {
        ListingFuel(ep, NextUrl(r).value, n - 1, m - 1);
      }
  }

  /** The items of the stream a listing starting at `url` yields. */
  ghost function Stream<T>(ep: Endpoint<T>, url: string): seq<Result<T, Error>>
    requires Finite(ep, url)
  {
    var n: nat :| EndsWithin(ep, url, n);
    Listing(ep, url, n)
  }

  /**
   * The `stream!` body of every listing: request the page, take its `next`
   * relation as the next URL, yield each record; a failed request yields its
   * error and ends the stream.
   */
  method FetchAll<T>(ep: Endpoint<T>, start: string) returns (items: seq<Result<T, Error>>)
    requires Finite(ep, start)
    ensures items == Stream(ep, start)
  {
    ghost var n: nat :| EndsWithin(ep, start, n);
    ghost var fuel: nat := n;
    ghost var total := Listing(ep, start, n);
    var next: Option<string> := Some(start);
    items := [];
    while next.Some?
      invariant next.Some? ==> EndsWithin(ep, next.value, fuel)
      invariant items + Remaining(ep, next, fuel) == total
      decreases fuel
    {
      var url := next.value;
      var res := ep(url);
      if res.Err? {
        items := items + [Err(res.error)];
        next := None;
      } else {
        ListingOk(ep, url, fuel);
        next := NextUrl(res.value);
        items := YieldPage(items, res.value.body);
      }
      fuel := fuel - 1;
    }
    StreamIsListing(ep, start, n);
  }

  /** `for record in data { yield Ok(record) }`. */
  method YieldPage<T>(before: seq<Result<T, Error>>, data: seq<T>) returns (items: seq<Result<T, Error>>)
    ensures items == before + Oks(data)
  {
    items := before;
    for i := 0 to |data|
      invariant items == before + Oks(data[..i])
    {
      OksSnoc(data[..i], data[i]);
      assert data[..i + 1] == data[..i] + [data[i]];
      items := items + [Ok(data[i])];
    }
    assert data[..|data|] == data;
  }

  /** What the stream still yields when the next request is `next`. */
  function Remaining<T>(ep: Endpoint<T>, next: Option<string>, fuel: nat): seq<Result<T, Error>>
    requires next.Some? ==> EndsWithin(ep, next.value, fuel)
  {
    if next.Some? then Listing(ep, next.value, fuel) else []
  }

  lemma OksSnoc<T>(records: seq<T>, x: T)
    ensures Oks(records + [x]) == Oks(records) + [Ok(x)]
  {
  }

  /** A successful page contributes its records, then the listing from its `next`, if any. */
  lemma ListingOk<T>(ep: Endpoint<T>, url: string, n: nat)
    requires EndsWithin(ep, url, n) && ep(url).Ok?
    ensures var r := ep(url).value;
      NextUrl(r).Some? ==> (EndsWithin(ep, NextUrl(r).value, n - 1) &&
        Listing(ep, url, n) == Oks(r.body) + Listing(ep, NextUrl(r).value, n - 1))
    ensures var r := ep(url).value;
      NextUrl(r).None? ==> Listing(ep, url, n) == Oks(r.body)
  {
  }

  /** The stream does not depend on which sufficient fuel is used. */
  lemma StreamIsListing<T>(ep: Endpoint<T>, url: string, n: nat)
    requires EndsWithin(ep, url, n)
    ensures Finite(ep, url) && Stream(ep, url) == Listing(ep, url, n)
  {
    forall k: nat | EndsWithin(ep, url, k) ensures Listing(ep, url, k) == Listing(ep, url, n) {
      ListingFuel(ep, url, k, n);
    }
  }

  /**
   * One step of the stream: an error ends it with that error; otherwise the
   * page's records come first, then (only when there is a `next`) the stream
   * from the `next` URL. An empty page with a `next` still leads to that page.
   */
  lemma StreamUnfold<T>(ep: Endpoint<T>, url: string)
    requires Finite(ep, url)
    ensures ep(url).Err? ==> Stream(ep, url) == [Err(ep(url).error)]
    ensures ep(url).Ok? && NextUrl(ep(url).value).None? ==> Stream(ep, url) == Oks(ep(url).value.body)
    ensures ep(url).Ok? && NextUrl(ep(url).value).Some? ==>
      var next := NextUrl(ep(url).value).value;
      Finite(ep, next) && Stream(ep, url) == Oks(ep(url).value.body) + Stream(ep, next)
  {
    var n: nat :| EndsWithin(ep, url, n);
    StreamIsListing(ep, url, n);
    if ep(url).Ok? && NextUrl(ep(url).value).Some? {
      var next := NextUrl(ep(url).value).value;
      StreamIsListing(ep, next, n - 1);
    }
  }

  /** Only the last item of a stream can be an error: a failure ends the stream. */
  lemma {:induction false} ListingErrorOnlyLast<T>(ep: Endpoint<T>, url: string, n: nat)
    requires EndsWithin(ep, url, n)
    ensures var s := Listing(ep, url, n);
      |s| > 0 ==> forall i :: 0 <= i < |s| - 1 ==> s[i].Ok?
    decreases n
  {
    match ep(url)
    case Err(_) =>
    case Ok(r) =>
      var s := Listing(ep, url, n);
      var head := Oks(r.body);
      if NextUrl(r).Some? {
        var rest := Listing(ep, NextUrl(r).value, n - 1);
        ListingErrorOnlyLast(ep, NextUrl(r).value, n - 1);
        assert s == head + rest;
        forall i | 0 <= i < |s| - 1 ensures s[i].Ok? {
          if i >= |head| {
            assert s[i] == rest[i - |head|];
          }
        }
      } else {
        assert s == head + [];
      }
  }

  lemma StreamErrorOnlyLast<T>(ep: Endpoint<T>, url: string)
    requires Finite(ep, url)
    ensures var s := Stream(ep, url);
      |s| > 0 ==> forall i :: 0 <= i < |s| - 1 ==> s[i].Ok?
  {
    var n: nat :| EndsWithin(ep, url, n);
    StreamIsListing(ep, url, n);
    ListingErrorOnlyLast(ep, url, n);
  }

  /** A header whose only relation is `next` continues at that URL. */
  lemma NextOnlyHeader(u: string)
    requires WellFormed(Link(u, "next"))
    ensures PaginationFromHeader(LinkHeader([Link(u, "next")], ["", ""])).next == Some(u)
  {
    HeaderFields([Link(u, "next")], ["", ""]);
  }

  /** A header naming only `prev` has no `next`: the listing ends there. */
  lemma PrevOnlyHeader(u: string)
    requires WellFormed(Link(u, "prev"))
    ensures PaginationFromHeader(LinkHeader([Link(u, "prev")], ["", ""])).next == None
  {
    HeaderFields([Link(u, "prev")], ["", ""]);
    LastWithAbsent([Link(u, "prev")], "next");
  }

  /**
   * Three pages of two records, `next` on the first two and only `prev` on the
   * third: six records in page order, then the end, no error.
   */
  lemma ThreePages<T>(ep: Endpoint<T>, u1: string, u2: string, u3: string, a: T, b: T, c: T, d: T, e: T, f: T)
    requires WellFormed(Link(u2, "next")) && WellFormed(Link(u3, "next")) && WellFormed(Link(u2, "prev"))
    requires ep(u1) == Ok(Response([a, b], Some(LinkHeader([Link(u2, "next")], ["", ""]))))
    requires ep(u2) == Ok(Response([c, d], Some(LinkHeader([Link(u3, "next")], ["", ""]))))
    requires ep(u3) == Ok(Response([e, f], Some(LinkHeader([Link(u2, "prev")], ["", ""]))))
    ensures Finite(ep, u1)
    ensures Stream(ep, u1) == [Ok(a), Ok(b), Ok(c), Ok(d), Ok(e), Ok(f)]
  {
    NextOnlyHeader(u2);
    NextOnlyHeader(u3);
    PrevOnlyHeader(u2);
    ChainedPages(ep, u1, u2, u3, a, b, c, d, e, f);
    StreamIsListing(ep, u1, 3);
  }

  /** A two-record page without a `next` link is a listing of its own. */
  lemma LastPage<T>(ep: Endpoint<T>, u: string, x: T, y: T)
    requires ep(u).Ok? && ep(u).value.body == [x, y] && NextUrl(ep(u).value) == None
    ensures EndsWithin(ep, u, 1) && Listing(ep, u, 1) == [Ok(x), Ok(y)]
  {
    assert Oks([x, y]) == [Ok(x), Ok(y)];
  }

  /** A two-record page whose `next` link leads to `v` prepends its records to `v`'s listing. */
  lemma PageThen<T>(ep: Endpoint<T>, u: string, v: string, n: nat, x: T, y: T)
    requires ep(u).Ok? && ep(u).value.body == [x, y] && NextUrl(ep(u).value) == Some(v)
    requires EndsWithin(ep, v, n)
    ensures EndsWithin(ep, u, n + 1) && Listing(ep, u, n + 1) == [Ok(x), Ok(y)] + Listing(ep, v, n)
  {
    assert Oks([x, y]) == [Ok(x), Ok(y)];
  }

  /** Three successful pages chained by their `next` URLs, the last without one. */
  lemma ChainedPages<T>(ep: Endpoint<T>, u1: string, u2: string, u3: string, a: T, b: T, c: T, d: T, e: T, f: T)
    requires ep(u1).Ok? && ep(u1).value.body == [a, b] && NextUrl(ep(u1).value) == Some(u2)
    requires ep(u2).Ok? && ep(u2).value.body == [c, d] && NextUrl(ep(u2).value) == Some(u3)
    requires ep(u3).Ok? && ep(u3).value.body == [e, f] && NextUrl(ep(u3).value) == None
    ensures EndsWithin(ep, u1, 3) && Listing(ep, u1, 3) == [Ok(a), Ok(b), Ok(c), Ok(d), Ok(e), Ok(f)]
  {
    LastPage(ep, u3, e, f);
    PageThen(ep, u2, u3, 1, c, d);
    PageThen(ep, u1, u2, 2, a, b);
  }

}
