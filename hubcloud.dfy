/**
 * The hubcloud extractor (`hubcloudExtractor`): it fetches a hubcloud page,
 * follows the `var url = '...'` redirect (possibly base64-encoded after
 * `r=`) or the download button to the vcloud page, and turns every download
 * button of that page into at most one `{server, link, type: "mkv"}` stream,
 * trying a fixed list of cases in order and keeping the first that applies.
 *
 * The network and the page parser are inputs: the page text, the href of the
 * download button, the hrefs of the buttons on the vcloud page and the answers
 * to `HEAD` requests are given, with None where the request throws.
 */
module Hubcloud {
  import opened Values
  import opened JsText

  // ---------------------------------------------------------------------------
  // hubcloudDecode and the vcloud link

  /**
   * `hubcloudDecode(value)`: "" for `undefined`, otherwise `atob(value)`.
   * `atob` is the host's base64 decoder, given None where it throws.
   */
  function HubcloudDecode(value: Option<string>, atob: string -> Option<string>): (r: Option<string>)
    ensures value.None? ==> r == Some("")
    ensures value.Some? ==> r == atob(value.value)
  {
    match value
    case None => Some("")
    case Some(v) => atob(v)
  }

  /** `link.split("/").slice(0, 3).join("/")`. */
  function BaseUrl(link: string): string {
    var parts := Split(link, "/");
    Join(parts[..SliceEnd(|parts|, 3)], "/")
  }

  /** A slash-free host followed by nothing or a path is the first "/"-separated part. */
  lemma HostFirstPart(host: string, rest: string)
    requires '/' !in host && (rest == "" || rest[0] == '/')
    ensures Split(host + rest, "/")[0] == host
  {
    SplitNoSep(host, '/');
    if rest == "" {
      assert host + rest == host;
    } else {
      assert host + rest == host + ['/'] + rest[1..];
      SplitConcat(host, '/', rest[1..]);
    }
  }

  /** A leading "/" splits off an empty first part. */
  lemma SplitLeadingSlash(b: string)
    ensures Split(['/'] + b, "/") == [""] + Split(b, "/")
  {
    assert ['/'] + b == "" + ['/'] + b;
    SplitConcat("", '/', b);
    SplitNoSep("", '/');
  }

  /** `a//b` with a slash-free `a` splits into `a`, "" and the parts of `b`. */
  lemma SplitDoubleSlash(a: string, b: string)
    requires '/' !in a
    ensures Split(a + "//" + b, "/") == [a, ""] + Split(b, "/")
  {
    var c := ['/'] + b;
    DoubleSlash(a, b);
    SplitLeadingSlash(b);
    SplitConcat(a, '/', c);
    SplitNoSep(a, '/');
  }

  lemma DoubleSlash(a: string, b: string)
    ensures a + "//" + b == a + ['/'] + (['/'] + b)
  {
  }

  /** The first three "/"-separated parts of `scheme://host<rest>`. */
  lemma SchemeHostParts(scheme: string, host: string, rest: string)
    requires '/' !in scheme && '/' !in host
    requires rest == "" || rest[0] == '/'
    ensures var parts := Split(scheme + "//" + host + rest, "/");
      |parts| >= 3 && parts[..3] == [scheme, "", host]
  {
    assert scheme + "//" + host + rest == scheme + "//" + (host + rest);
    SplitDoubleSlash(scheme, host + rest);
    HostFirstPart(host, rest);
  }

  /** The base URL of an absolute link is its scheme and host: `scheme://host`. */
  lemma BaseUrlOf(scheme: string, host: string, rest: string)
    requires '/' !in scheme && '/' !in host
    requires rest == "" || rest[0] == '/'
    ensures BaseUrl(scheme + "//" + host + rest) == scheme + "//" + host
  {
    SchemeHostParts(scheme, host, rest);
    var parts := Split(scheme + "//" + host + rest, "/");
    assert SliceEnd(|parts|, 3) == 3;
    JoinCons("", [host], "/");
    JoinCons(scheme, ["", host], "/");
    assert [scheme] + ["", host] == [scheme, "", host];
    assert [""] + [host] == ["", host];
  }

  /** `'([^']+)';` at the start of `s`: the quoted URL. */
  function QuotedUrl(s: string): (r: Option<string>)
    ensures r.Some? ==> r.value != "" && '\'' !in r.value
  {
    var g :- Expect(s, "'");
    var u := SpanPrefix(g, NotApostrophe);
    if u != "" && StartsWith(g[|u|..], "';") then
      assert forall m :: 0 <= m < |u| ==> InClass(u[m], NotApostrophe);
      Some(u)
    else None
  }

  /** `url\s*=\s*'([^']+)';` at the start of `s`. */
  function UrlAssignment(s: string): (r: Option<string>)
    ensures r.Some? ==> r.value != "" && '\'' !in r.value
  {
    var c :- Expect(s, "url");
    var e :- Expect(SkipSpan(c, Space), "=");
    QuotedUrl(SkipSpan(e, Space))
  }

  /** `var\s+url\s*=\s*'([^']+)';` at the very start of `s`: the group. */
  function VarUrlAt(s: string): (r: Option<string>)
    ensures r.Some? ==> StartsWith(s, "var") && r.value != "" && '\'' !in r.value
  {
    var a :- Expect(s, "var");
    var b := SkipSpan(a, Space);
    if |b| == |a| then None else UrlAssignment(b)
  }

  /** `text.match(/var\s+url\s*=\s*'([^']+)';/)?.[1]`: the first match's group. */
  function FindVarUrl(text: string): Option<string> {
    match FindFirst(VarUrlAt, text, 0)
    case None => None
    case Some(i) => VarUrlAt(text[i..])
  }

  lemma QuotedUrlMatch(u: string, rest: string)
    requires u != "" && '\'' !in u
    ensures QuotedUrl("'" + (u + ("';" + rest))) == Some(u)
  {
    ExpectConcat("'", u + ("';" + rest));
    assert AllIn(u, NotApostrophe);
    SpanPrefixOver(u, "';" + rest, NotApostrophe);
    var g := u + ("';" + rest);
    assert g[|u|..] == "';" + rest;
    ExpectConcat("';", rest);
  }

  lemma UrlAssignmentMatch(u: string, rest: string)
    requires u != "" && '\'' !in u
    ensures UrlAssignment("url" + (" " + ("=" + (" " + ("'" + (u + ("';" + rest))))))) == Some(u)
  {
    var t := "'" + (u + ("';" + rest));
    ExpectConcat("url", " " + ("=" + (" " + t)));
    SkipSpanOver(" ", "=" + (" " + t), Space);
    ExpectConcat("=", " " + t);
    SkipSpanOver(" ", t, Space);
    QuotedUrlMatch(u, rest);
  }

  /** `var url = '<u>';` followed by anything matches with group `u`. */
  lemma VarUrlMatch(u: string, rest: string)
    requires u != "" && '\'' !in u
    ensures VarUrlAt("var url = '" + u + "';" + rest) == Some(u)
  {
    var b := "url" + (" " + ("=" + (" " + ("'" + (u + ("';" + rest))))));
    assert "var url = '" + u + "';" + rest == "var" + (" " + b);
    ExpectConcat("var", " " + b);
    SkipSpanOver(" ", b, Space);
    UrlAssignmentMatch(u, rest);
  }

  /** A page that starts with the redirect script yields its URL. */
  lemma FindVarUrlAtStart(u: string, rest: string)
    requires u != "" && '\'' !in u
    ensures FindVarUrl("var url = '" + u + "';" + rest) == Some(u)
  {
    var s := "var url = '" + u + "';" + rest;
    VarUrlMatch(u, rest);
    assert s[0..] == s;
  }

  /**
   * `vcloudLink`, given the group of the redirect script (`vLinkRedirect[1]`):
   * the decoded `r=` parameter of the redirect URL, else the redirect URL,
   * else the download button's href, else `link`; a link starting with "/" is
   * made absolute with the base URL of `link`. None when `atob` throws, which
   * aborts the whole extraction.
   */
  function VcloudLink(link: string, redirect: Option<string>, downloadHref: Option<string>,
                      atob: string -> Option<string>): (r: Option<string>)
    ensures r.None? ==> redirect.Some? && SplitPiece(redirect.value, "r=", 1).Some?
  {
    var param := if redirect.Some? then SplitPiece(redirect.value, "r=", 1) else None;
    var decoded :- HubcloudDecode(param, atob);
    var v := Or(decoded, OrElse(redirect, OrElse(downloadHref, link)));
    Some(if StartsWith(v, "/") then BaseUrl(link) + v else v)
  }

  /** A non-empty, absolute decoded `r=` parameter is the vcloud link. */
  lemma VcloudLinkDecoded(link: string, redirect: string, downloadHref: Option<string>,
                          atob: string -> Option<string>, d: string)
    requires SplitPiece(redirect, "r=", 1).Some?
    requires atob(SplitPiece(redirect, "r=", 1).value) == Some(d)
    requires d != "" && d[0] != '/'
    ensures VcloudLink(link, Some(redirect), downloadHref, atob) == Some(d)
  {
    assert !StartsWith(d, "/");
  }

  /** Without a redirect script, the download button's href is followed, else `link`. */
  lemma VcloudLinkFallback(link: string, downloadHref: Option<string>, atob: string -> Option<string>)
    ensures VcloudLink(link, None, downloadHref, atob) ==
      var v := OrElse(downloadHref, link);
      Some(if StartsWith(v, "/") then BaseUrl(link) + v else v)
  {
  }

  /** A relative download href is resolved against the scheme and host of `link`. */
  lemma VcloudLinkRelative(scheme: string, host: string, rest: string, path: string,
                           atob: string -> Option<string>)
    requires '/' !in scheme && '/' !in host && (rest == "" || rest[0] == '/')
    requires |path| > 0 && path[0] == '/'
    ensures VcloudLink(scheme + "//" + host + rest, None, Some(path), atob) ==
      Some(scheme + "//" + host + path)
  {
    BaseUrlOf(scheme, host, rest);
    assert StartsWith(path, "/");
  }

  // ---------------------------------------------------------------------------
  // The Pixeldrain rewrite

  /** `${link.split("/").slice(0, -2).join("/")}/api/file/${link.split("/").pop()}?download`. */
  function PixeldrainLink(link: string): string {
    var parts := Split(link, "/");
    var token := parts[|parts| - 1];
    var base := Join(parts[..SliceEnd(|parts|, -2)], "/");
    base + "/api/file/" + token + "?download"
  }

  /** `<base>/<kind>/<token>` becomes `<base>/api/file/<token>?download`. */
  lemma PixeldrainLinkOf(base: string, kind: string, token: string)
    requires '/' !in kind && '/' !in token
    ensures PixeldrainLink(base + "/" + kind + "/" + token) == base + "/api/file/" + token + "?download"
  {
    var link := base + "/" + kind + "/" + token;
    assert link == base + ['/'] + (kind + ['/'] + token);
    SplitConcat(base, '/', kind + ['/'] + token);
    SplitConcat(kind, '/', token);
    SplitNoSep(kind, '/');
    SplitNoSep(token, '/');
    var parts := Split(link, "/");
    var front := Split(base, "/");
    assert parts == front + [kind, token];
    assert parts[..SliceEnd(|parts|, -2)] == front;
    JoinSplit(base, "/");
  }

  // ---------------------------------------------------------------------------
  // Redirect selection in the hubcloud case

  /**
   * A `HEAD` response with `redirect: "manual"`: the status, the `location`
   * header (null when absent) and the response URL.
   */
  datatype Response = Response(status: int, location: Option<string>, url: string)

  predicate IsRedirect(status: int) {
    300 <= status < 400
  }

  /** `newLink` after the first `HEAD` request on `link`. */
  function FirstHop(link: string, res: Response): (r: string)
    ensures r == link || r == res.url || res.location == Some(r)
    ensures IsRedirect(res.status) && res.location.Some? && res.location.value != "" ==>
      r == res.location.value
    ensures !IsRedirect(res.status) && res.url != "" && res.url != link ==> r == res.url
    ensures IsRedirect(res.status) ==> r == OrElse(res.location, link)
    ensures !IsRedirect(res.status) && (res.url == "" || res.url == link) ==> r == OrElse(res.location, link)
    ensures link != "" ==> r != ""
  {
    if IsRedirect(res.status) then OrElse(res.location, link)
    else if res.url != "" && res.url != link then res.url
    else OrElse(res.location, link)
  }

  /** `s.split("?link=")[1]`. */
  function LinkParam(s: string): Option<string> {
    SplitPiece(s, "?link=", 1)
  }

  /** `location?.split("?link=")[1] || newLink`. */
  function FromLocation(location: Option<string>, newLink: string): (r: string)
    ensures location.None? ==> r == newLink
    ensures location.Some? && LinkParam(location.value).Some? && LinkParam(location.value).value != "" ==>
      r == LinkParam(location.value).value
    ensures r != newLink ==> location.Some? && LinkParam(location.value) == Some(r) && r != ""
  {
    match location
    case None => newLink
    case Some(l) => OrElse(LinkParam(l), newLink)
  }

  /** `newLink` after the second `HEAD` request, on the first hop's target. */
  function SecondHop(newLink: string, res: Response): (r: string)
    ensures r == newLink || r == res.url || LinkParam(res.url) == Some(r) ||
      (res.location.Some? && LinkParam(res.location.value) == Some(r))
    ensures newLink != "" ==> r != ""
    ensures !IsRedirect(res.status) && res.url != "" && res.url != newLink && LinkParam(res.url).None? ==>
      r == res.url
    ensures IsRedirect(res.status) ==> r == FromLocation(res.location, newLink)
    ensures !IsRedirect(res.status) && res.url != "" && res.url != newLink ==>
      r == OrElse(LinkParam(res.url), res.url)
    ensures !IsRedirect(res.status) && (res.url == "" || res.url == newLink) ==>
      r == FromLocation(res.location, newLink)
  {
    if IsRedirect(res.status) then FromLocation(res.location, newLink)
    else if res.url != "" && res.url != newLink then OrElse(LinkParam(res.url), res.url)
    else FromLocation(res.location, newLink)
  }

  /** The hubcloud case either throws, which drops the button, or resolves a link (possibly undefined). */
  datatype Hop = Dropped | Resolved(target: Option<string>)

  /** A link the hubcloud case handles (after the Pixeldrain and worker cases). */
  predicate IsHubcloudLink(link: string) {
    Contains(link, "hubcloud") || Contains(link, "/?id=")
  }

  /**
   * The link pushed in the hubcloud case: a `googleusercontent` target is
   * replaced by its `?link=` parameter, any other target goes through a second
   * `HEAD` request. A request that throws drops the button.
   */
  function HubcloudTarget(link: string, head: string -> Option<Response>): (r: Hop)
    ensures head(link).None? ==> r == Dropped
    ensures r.Resolved? && r.target.None? ==>
      head(link).Some? && Contains(FirstHop(link, head(link).value), "googleusercontent")
    ensures link != "" && r.Resolved? && r.target.Some? && r.target.value == "" ==>
      Contains(FirstHop(link, head(link).value), "googleusercontent")
    ensures head(link).Some? && Contains(FirstHop(link, head(link).value), "googleusercontent") ==>
      r == Resolved(LinkParam(FirstHop(link, head(link).value)))
    ensures head(link).Some? && !Contains(FirstHop(link, head(link).value), "googleusercontent") ==>
      var newLink := FirstHop(link, head(link).value);
      r == if head(newLink).None? then Dropped else Resolved(Some(SecondHop(newLink, head(newLink).value)))
  {
    match head(link)
    case None => Dropped
    case Some(res) =>
      var newLink := FirstHop(link, res);
      if Contains(newLink, "googleusercontent") then Resolved(LinkParam(newLink))
      else
        match head(newLink)
        case None => Dropped
        case Some(res2) => Resolved(Some(SecondHop(newLink, res2)))
  }

  /** Text that contains `q` still contains it with more text after it. */
  lemma ContainsExtend(s: string, q: string, t: string)
    requires Contains(s, q)
    ensures Contains(s + t, q)
  {
    var i := IndexOf(s, q).value;
    assert (s + t)[i..i + |q|] == s[i..i + |q|];
    assert OccursAt(s + t, q, i);
  }

  /** The `?link=` parameter of `g?link=p`, for a `g` without `?` and a `p` without `?link=`. */
  lemma LinkParamOf(g: string, p: string)
    requires '?' !in g && !Contains(p, "?link=")
    ensures LinkParam(g + "?link=" + p) == Some(p)
  {
    var s := g + "?link=" + p;
    assert OccursAt(s, "?link=", |g|);
    var i := IndexOf(s, "?link=").value;
    assert s[i] == "?link="[0];
    assert i == |g|;
    assert s[i + |"?link="|..] == p;
    assert Split(p, "?link=") == [p];
    assert s[..i] == g;
    assert Split(s, "?link=") == [g] + Split(p, "?link=");
  }

  /**
   * A hubcloud link whose first request redirects to a googleusercontent page
   * `g?link=p` resolves to `p`, without a second request.
   */
  lemma HubcloudTargetGoogle(link: string, g: string, p: string, url: string,
                             head: string -> Option<Response>)
    requires head(link) == Some(Response(302, Some(g + "?link=" + p), url))
    requires Contains(g, "googleusercontent") && '?' !in g && !Contains(p, "?link=")
    ensures HubcloudTarget(link, head) == Resolved(Some(p))
  {
    var loc := g + "?link=" + p;
    assert FirstHop(link, head(link).value) == loc;
    ContainsExtend(g, "googleusercontent", "?link=" + p);
    assert g + ("?link=" + p) == loc;
    LinkParamOf(g, p);
  }

  // ---------------------------------------------------------------------------
  // The server name of the default case

  function LowerAscii(c: char): char {
    if 'A' <= c <= 'Z' then (c as int - 'A' as int + 'a' as int) as char else c
  }

  /** `s` starts with the lower-case ASCII text `p`, ignoring ASCII case (the `i` flag). */
  predicate StartsWithIgnoreCase(s: string, p: string) {
    |p| <= |s| && forall m :: 0 <= m < |p| ==> LowerAscii(s[m]) == p[m]
  }

  /** The group of `(?:www\.)?([^\/]+)` at the start of `r`, with backtracking over the optional `www.`. */
  function HostGroupAfter(r: string): (g: Option<string>)
    ensures g.Some? ==> g.value != "" && '/' !in g.value
  {
    if StartsWithIgnoreCase(r, "www.") && |r| > 4 && r[4] != '/' then
      var h := SpanPrefix(r[4..], NotSlash);
      assert forall m :: 0 <= m < |h| ==> InClass(h[m], NotSlash);
      Some(h)
    else if r != "" && r[0] != '/' then
      var h := SpanPrefix(r, NotSlash);
      assert forall m :: 0 <= m < |h| ==> InClass(h[m], NotSlash);
      Some(h)
    else None
  }

  /** `s.match(/^(?:https?:\/\/)?(?:www\.)?([^\/]+)/i)?.[1]`. */
  function HostGroup(s: string): (g: Option<string>)
    ensures g.Some? ==> g.value != "" && '/' !in g.value
  {
    var scheme := if StartsWithIgnoreCase(s, "https://") then 8
                  else if StartsWithIgnoreCase(s, "http://") then 7
                  else 0;
    if scheme > 0 && HostGroupAfter(s[scheme..]).Some? then HostGroupAfter(s[scheme..])
    else HostGroupAfter(s)
  }

  /** The pattern matches exactly the links that are non-empty and do not start with "/". */
  lemma HostGroupNone(s: string)
    ensures HostGroup(s).None? <==> s == "" || s[0] == '/'
  {
    if s != "" && s[0] != '/' {
      assert HostGroupAfter(s).Some?;
    }
  }

  /** Text that does not start with `www.` (in any case) gives the host itself. */
  lemma HostGroupAfterBare(host: string, rest: string)
    requires host != "" && '/' !in host && !StartsWithIgnoreCase(host, "www.")
    requires rest == "" || rest[0] == '/'
    ensures HostGroupAfter(host + rest) == Some(host)
  {
    var r := host + rest;
    assert AllIn(host, NotSlash);
    SpanPrefixOver(host, rest, NotSlash);
    if |host| < 4 && |r| >= 4 {
      assert r[|host|] == '/';
      assert LowerAscii(r[|host|]) != "www."[|host|];
    } else if |host| >= 4 {
      assert r[..4] == host[..4];
    }
    assert !StartsWithIgnoreCase(r, "www.");
  }

  /** A `www.` prefix is skipped before the host. */
  lemma HostGroupAfterWww(host: string, rest: string)
    requires host != "" && '/' !in host
    requires rest == "" || rest[0] == '/'
    ensures HostGroupAfter("www." + host + rest) == Some(host)
  {
    var r := "www." + host + rest;
    assert AllIn(host, NotSlash);
    SpanPrefixOver(host, rest, NotSlash);
    assert r[4..] == host + rest;
    assert r[4] == host[0];
    assert StartsWithIgnoreCase(r, "www.");
  }

  /** After an optional `www.`, the group is the host, up to the first "/". */
  lemma HostGroupAfterOf(www: string, host: string, rest: string)
    requires www == "www." || www == ""
    requires host != "" && '/' !in host
    requires www == "" ==> !StartsWithIgnoreCase(host, "www.")
    requires rest == "" || rest[0] == '/'
    ensures HostGroupAfter(www + host + rest) == Some(host)
  {
    if www == "www." {
      HostGroupAfterWww(host, rest);
    } else {
      assert www + host + rest == host + rest;
      HostGroupAfterBare(host, rest);
    }
  }

  /** A scheme in front of text the pattern matches is skipped. */
  lemma HostGroupScheme(scheme: string, r: string)
    requires scheme == "https://" || scheme == "http://"
    requires HostGroupAfter(r).Some?
    ensures HostGroup(scheme + r) == HostGroupAfter(r)
  {
    var s := scheme + r;
    assert StartsWithIgnoreCase(s, scheme);
    if scheme == "http://" {
      assert LowerAscii(s[4]) != "https://"[4];
    }
    assert s[|scheme|..] == r;
  }

  /** With a scheme and an optional `www.`, the group is the host. */
  lemma HostGroupOf(scheme: string, www: string, host: string, rest: string)
    requires scheme == "https://" || scheme == "http://"
    requires www == "www." || www == ""
    requires host != "" && '/' !in host
    requires www == "" ==> !StartsWithIgnoreCase(host, "www.")
    requires rest == "" || rest[0] == '/'
    ensures HostGroup(scheme + (www + host + rest)) == Some(host)
  {
    HostGroupAfterOf(www, host, rest);
    HostGroupScheme(scheme, www + host + rest);
  }

  /** `.replace(/\./g, " ")`. */
  function ReplaceDots(s: string): (r: string)
    ensures |r| == |s| && '.' !in r
    ensures forall m :: 0 <= m < |s| && s[m] != '.' ==> r[m] == s[m]
    ensures forall m :: 0 <= m < |s| && s[m] == '.' ==> r[m] == ' '
    decreases |s|
  {
    if s == "" then ""
    else [if s[0] == '.' then ' ' else s[0]] + ReplaceDots(s[1..])
  }

  /** The server name of the default case: the host with its dots as spaces, or "Unknown". */
  function HostServer(link: string): (r: string)
    ensures '.' !in r
    ensures link != "" && link[0] != '/' ==> r != "" && '/' !in r
  {
    HostGroupNone(link);
    match HostGroup(link)
    case Some(g) => ReplaceDots(g)
    case None => "Unknown"
  }

  // ---------------------------------------------------------------------------
  // Classifying one button

  /** A stream record; `kind` is the record's `type`. */
  datatype Stream = Stream(server: string, link: Option<string>, kind: string)

  /** A link that falls through the Pixeldrain and worker cases into the hubcloud case. */
  predicate HubcloudCase(link: string) {
    !Contains(link, "pixeld") && !(Contains(link, ".dev") && !Contains(link, "/?id=")) && IsHubcloudLink(link)
  }

  /** The `switch (true)` over one button's href: the stream it pushes, if any. */
  function Classify(href: Option<string>, head: string -> Option<Response>): (r: Option<Stream>)
    ensures r.Some? ==> r.value.kind == "mkv"
    ensures OrElse(href, "") == "" ==> r.None?
    ensures Contains(OrElse(href, ""), "pixeld") ==> r.Some? && r.value.server == "Pixeldrain"
    ensures Contains(OrElse(href, ""), "pixeld") && Contains(OrElse(href, ""), "api") ==>
      r.value.link == Some(OrElse(href, ""))
    ensures Contains(OrElse(href, ""), "pixeld") && !Contains(OrElse(href, ""), "api") ==>
      r == Some(Stream("Pixeldrain", Some(PixeldrainLink(OrElse(href, ""))), "mkv"))
    ensures HubcloudCase(OrElse(href, "")) ==>
      r == match HubcloudTarget(OrElse(href, ""), head)
           case Dropped => None
           case Resolved(target) => Some(Stream("hubcloud", target, "mkv"))
    ensures r.Some? && !Contains(OrElse(href, ""), "pixeld") && !IsHubcloudLink(OrElse(href, "")) ==>
      r.value.link == Some(OrElse(href, ""))
    ensures r.Some? && r.value.link.None? ==> IsHubcloudLink(OrElse(href, ""))
    ensures r.None? ==>
      (IsHubcloudLink(OrElse(href, "")) && HubcloudTarget(OrElse(href, ""), head).Dropped?) ||
      (!Contains(OrElse(href, ""), ".mkv") && !Contains(OrElse(href, ""), "?token="))
  {
    var link := OrElse(href, "");
    if Contains(link, "pixeld") then
      Some(Stream("Pixeldrain", Some(if Contains(link, "api") then link else PixeldrainLink(link)), "mkv"))
    else if Contains(link, ".dev") && !Contains(link, "/?id=") then
      Some(Stream("Cf Worker", Some(link), "mkv"))
    else if IsHubcloudLink(link) then
      match HubcloudTarget(link, head)
      case Dropped => None
      case Resolved(target) => Some(Stream("hubcloud", target, "mkv"))
    else if Contains(link, "cloudflarestorage") then
      Some(Stream("CfStorage", Some(link), "mkv"))
    else if Contains(link, "fastdl") || Contains(link, "fsl.") then
      Some(Stream("FastDl", Some(link), "mkv"))
    else if Contains(link, "hubcdn") && !Contains(link, "/?id=") then
      Some(Stream("HubCdn", Some(link), "mkv"))
    else if Contains(link, ".mkv") || Contains(link, "?token=") then
      Some(Stream(HostServer(link), Some(link), "mkv"))
    else None
  }

  /** A Pixeldrain viewer link `<base>/<kind>/<token>` is pushed as its download link. */
  lemma ClassifyPixeldrain(base: string, kind: string, token: string, head: string -> Option<Response>)
    requires '/' !in kind && '/' !in token
    requires Contains(base + "/" + kind + "/" + token, "pixeld") && !Contains(base + "/" + kind + "/" + token, "api")
    ensures Classify(Some(base + "/" + kind + "/" + token), head) ==
      Some(Stream("Pixeldrain", Some(base + "/api/file/" + token + "?download"), "mkv"))
  {
    PixeldrainLinkOf(base, kind, token);
  }

  /** The fixed server names, each reached only when every earlier case fails. */
  lemma ClassifyFixedServers(link: string, head: string -> Option<Response>)
    requires !Contains(link, "pixeld")
    ensures Contains(link, ".dev") && !Contains(link, "/?id=") ==>
      Classify(Some(link), head) == Some(Stream("Cf Worker", Some(link), "mkv"))
    ensures !Contains(link, ".dev") && !IsHubcloudLink(link) && Contains(link, "cloudflarestorage") ==>
      Classify(Some(link), head) == Some(Stream("CfStorage", Some(link), "mkv"))
    ensures (!Contains(link, ".dev") && !IsHubcloudLink(link) && !Contains(link, "cloudflarestorage") &&
      (Contains(link, "fastdl") || Contains(link, "fsl."))) ==>
      Classify(Some(link), head) == Some(Stream("FastDl", Some(link), "mkv"))
    ensures (!Contains(link, ".dev") && !IsHubcloudLink(link) && !Contains(link, "cloudflarestorage") &&
      !Contains(link, "fastdl") && !Contains(link, "fsl.") && Contains(link, "hubcdn")) ==>
      Classify(Some(link), head) == Some(Stream("HubCdn", Some(link), "mkv"))
  {
    if link == "" {
      assert !Contains(link, ".dev");
      assert !Contains(link, "cloudflarestorage");
      assert !Contains(link, "fastdl") && !Contains(link, "fsl.") && !Contains(link, "hubcdn");
    }
  }

  /** A link that reaches the default case is emitted with its host as the server exactly when it is a media link. */
  lemma ClassifyDefault(link: string, head: string -> Option<Response>)
    requires !Contains(link, "pixeld") && !Contains(link, ".dev") && !IsHubcloudLink(link)
    requires !Contains(link, "cloudflarestorage") && !Contains(link, "fastdl") && !Contains(link, "fsl.")
    requires !Contains(link, "hubcdn")
    ensures Classify(Some(link), head).Some? <==> Contains(link, ".mkv") || Contains(link, "?token=")
    ensures Classify(Some(link), head).Some? ==>
      Classify(Some(link), head).value == Stream(HostServer(link), Some(link), "mkv")
  {
  }

  /** Only the hubcloud case makes requests: every other button is classified from its href alone. */
  lemma ClassifyWithoutRequests(href: Option<string>, h1: string -> Option<Response>,
                                h2: string -> Option<Response>)
    requires Contains(OrElse(href, ""), "pixeld") || !IsHubcloudLink(OrElse(href, "")) ||
      (Contains(OrElse(href, ""), ".dev") && !Contains(OrElse(href, ""), "/?id="))
    ensures Classify(href, h1) == Classify(href, h2)
  {
  }

  /** The `hubcdn` case's own `/?id=` guard is already excluded by the hubcloud case before it. */
  lemma HubcdnGuardRedundant(link: string, head: string -> Option<Response>)
    requires !Contains(link, "pixeld") && !Contains(link, ".dev") && !IsHubcloudLink(link)
    requires !Contains(link, "cloudflarestorage") && !Contains(link, "fastdl") && !Contains(link, "fsl.")
    ensures Contains(link, "hubcdn") ==>
      Classify(Some(link), head) == Some(Stream("HubCdn", Some(link), "mkv"))
  {
  }

  // ---------------------------------------------------------------------------
  // The extractor

  /** The streams of the buttons, in button order: one per classified button. */
  function Streams(hrefs: seq<Option<string>>, head: string -> Option<Response>): (r: seq<Stream>)
    ensures |r| <= |hrefs|
  {
    MapDefined(h => Classify(h, head), hrefs)
  }

  /** Every stream of a page has type "mkv". */
  lemma {:induction false} StreamsAreMkv(hrefs: seq<Option<string>>, head: string -> Option<Response>)
    ensures forall m :: 0 <= m < |Streams(hrefs, head)| ==> Streams(hrefs, head)[m].kind == "mkv"
    decreases |hrefs|
  {
    if |hrefs| > 0 {
      var init := hrefs[..|hrefs| - 1];
      StreamsAreMkv(init, head);
      var c := Classify(hrefs[|hrefs| - 1], head);
      assert Streams(hrefs, head) == Streams(init, head) + (match c case Some(y) => [y] case None => []);
    }
  }

  /** Buttons contribute independently: the streams of two runs of buttons are concatenated. */
  lemma StreamsAppend(a: seq<Option<string>>, b: seq<Option<string>>, head: string -> Option<Response>)
    ensures Streams(a + b, head) == Streams(a, head) + Streams(b, head)
  {
    MapDefinedAppend(h => Classify(h, head), a, b);
  }

  /**
   * What the extractor's page requests give: the text of `link`'s page (None
   * when the request throws), the href of its download button, `atob`, the
   * hrefs of the buttons on the page a vcloud link leads to (None when the
   * request throws) and the answers to `HEAD` requests (None when they throw).
   */
  datatype Site = Site(
    page: Option<string>,
    downloadHref: Option<string>,
    atob: string -> Option<string>,
    buttons: string -> Option<seq<Option<string>>>,
    head: string -> Option<Response>)

  /** The streams `hubcloudExtractor(link, ...)` returns; [] when anything outside the hubcloud case throws. */
  function Extracted(link: string, site: Site): (r: seq<Stream>)
    ensures site.page.None? ==> r == []
    ensures forall m :: 0 <= m < |r| ==> r[m].kind == "mkv"
  {
    match site.page
    case None => []
    case Some(page) =>
      match VcloudLink(link, FindVarUrl(page), site.downloadHref, site.atob)
      case None => []
      case Some(v) =>
        match site.buttons(v)
        case None => []
        case Some(hrefs) =>
          StreamsAreMkv(hrefs, site.head);
          Streams(hrefs, site.head)
  }

  /** `hubcloudExtractor`: resolves the vcloud link, then classifies each button in order. */
  method HubcloudExtractor(link: string, site: Site) returns (streamLinks: seq<Stream>)
    ensures streamLinks == Extracted(link, site)
  {
    streamLinks := [];
    var baseUrl := BaseUrl(link);
    if site.page.None? {
      return;
    }
    var vLinkText := site.page.value;
    var vLinkRedirect := FindVarUrl(vLinkText);
    var param := if vLinkRedirect.Some? then SplitPiece(vLinkRedirect.value, "r=", 1) else None;
    var decoded := HubcloudDecode(param, site.atob);
    if decoded.None? {
      return;
    }
    var vcloudLink := Or(decoded.value, OrElse(vLinkRedirect, OrElse(site.downloadHref, link)));
    if StartsWith(vcloudLink, "/") {
      vcloudLink := baseUrl + vcloudLink;
    }
    var linkClass := site.buttons(vcloudLink);
    if linkClass.None? {
      return;
    }
    streamLinks := ClassifyButtons(linkClass.value, site.head);
  }

  /** One more button appends its stream, if any. */
  lemma StreamsStep(hrefs: seq<Option<string>>, i: nat, head: string -> Option<Response>)
    requires i < |hrefs|
    ensures Streams(hrefs[..i + 1], head) ==
      Streams(hrefs[..i], head) + (match Classify(hrefs[i], head) case Some(st) => [st] case None => [])
  {
    assert hrefs[..i + 1][..i] == hrefs[..i];
  }

  /** `for (const element of linkClass)`: each button classified in turn, its stream pushed. */
  method ClassifyButtons(elements: seq<Option<string>>, head: string -> Option<Response>)
    returns (streamLinks: seq<Stream>)
    ensures streamLinks == Streams(elements, head)
  {
    streamLinks := [];
    var i := 0;
    while i < |elements|
      invariant 0 <= i <= |elements|
      invariant streamLinks == Streams(elements[..i], head)
    {
      var stream := Classify(elements[i], head);
      StreamsStep(elements, i, head);
      if stream.Some? {
        streamLinks := streamLinks + [stream.value];
      }
      i := i + 1;
    }
    assert elements[..i] == elements;
  }
}
