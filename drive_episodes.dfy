/**
 * Episode-link assembly of the drive provider (`getEpisodes`). The page is
 * given already parsed: the anchors whose text contains "HubCloud" (old
 * layout), each with the text of its parent's previous sibling and its href,
 * and the headings the new layout is scanned for, each with the hrefs inside
 * the siblings that follow the heading's parent.
 */
module DriveEpisodes {
  import opened Values
  import opened JsText

  /** One episode entry: `{title, link}`. */
  datatype EpisodeLink = EpisodeLink(title: string, link: string)

  /** An anchor of the old layout: the text before its parent, and its href (if any). */
  datatype Anchor = Anchor(title: string, href: Option<string>)

  /**
   * A heading of the new layout: its text, and for each sibling that follows
   * the heading's parent, in order, the hrefs of the `a[href]` inside it.
   */
  datatype Heading = Heading(text: string, siblings: seq<seq<string>>)

  /** The parsed page; None when fetching `url` throws. */
  datatype Page = Page(anchors: seq<Anchor>, headings: seq<Heading>)

  // ---------------------------------------------------------------------------
  // The old layout

  /** The entry one old-layout anchor pushes, if any. */
  function OldEntry(a: Anchor): (r: Option<EpisodeLink>)
    ensures r.Some? <==>
      a.href.Some? && a.href.value != "" && (Contains(a.title, "Ep") || Contains(a.title, "Download"))
    ensures r.Some? ==> r.value.link == a.href.value
    ensures r.Some? && Contains(a.title, "Download") ==> r.value.title == "Play"
    ensures r.Some? && !Contains(a.title, "Download") ==> r.value.title == a.title
  {
    match a.href
    case Some(link) =>
      if link != "" && (Contains(a.title, "Ep") || Contains(a.title, "Download")) then
        Some(EpisodeLink(if Contains(a.title, "Download") then "Play" else a.title, link))
      else None
    case None => None
  }

  /** The old layout's entries, in anchor order. */
  function OldFormat(anchors: seq<Anchor>): seq<EpisodeLink> {
    MapDefined(OldEntry, anchors)
  }

  /** An entry is in the old layout's list exactly when some anchor yields it. */
  lemma OldFormatExactly(anchors: seq<Anchor>, e: EpisodeLink)
    ensures e in OldFormat(anchors) <==> exists a :: a in anchors && OldEntry(a) == Some(e)
  {
    MapDefinedFrom(OldEntry, anchors);
    if exists a :: a in anchors && OldEntry(a) == Some(e) {
      var a :| a in anchors && OldEntry(a) == Some(e);
      MapDefinedTo(OldEntry, anchors, a);
    }
  }

  // ---------------------------------------------------------------------------
  // The new layout

  /** `\d{3,4}p` matches at index `i` (four digits tried first). */
  predicate ResolutionAt(s: string, i: nat) {
    || (i + 5 <= |s| && AllIn(s[i..i + 4], Decimal) && s[i + 4] == 'p')
    || (i + 4 <= |s| && AllIn(s[i..i + 3], Decimal) && s[i + 3] == 'p')
  }

  /** `s.match(/\d{3,4}p/)` succeeds. */
  predicate HasResolution(s: string) {
    exists i: nat | i < |s| :: ResolutionAt(s, i)
  }

  /** Three digits followed by "p" at index `i`. */
  predicate ThreeDigitsThenP(s: string, i: nat) {
    i + 4 <= |s| && IsDecimal(s[i]) && IsDecimal(s[i + 1]) && IsDecimal(s[i + 2]) && s[i + 3] == 'p'
  }

  /** Searching for `\d{3,4}p` is the same as searching for three digits followed by "p". */
  lemma ResolutionThreeDigits(s: string)
    ensures HasResolution(s) <==> exists i: nat :: ThreeDigitsThenP(s, i)
  {
    if HasResolution(s) {
      var i: nat :| i < |s| && ResolutionAt(s, i);
      if i + 5 <= |s| && AllIn(s[i..i + 4], Decimal) && s[i + 4] == 'p' {
        assert s[i + 1] == s[i..i + 4][1] && s[i + 2] == s[i..i + 4][2] && s[i + 3] == s[i..i + 4][3];
        assert ThreeDigitsThenP(s, i + 1);
      } else {
        assert s[i] == s[i..i + 3][0] && s[i + 1] == s[i..i + 3][1] && s[i + 2] == s[i..i + 3][2];
        assert ThreeDigitsThenP(s, i);
      }
    }
    if exists i: nat :: ThreeDigitsThenP(s, i) {
      var i: nat :| ThreeDigitsThenP(s, i);
      assert AllIn(s[i..i + 3], Decimal);
      assert ResolutionAt(s, i);
    }
  }

  /** A heading's trimmed text starts an episode group. */
  predicate Qualifies(text: string) {
    text != "" && (HasResolution(text) || Contains(text, "Ep") || Contains(text, "Episode"))
  }

  /** The "Episode" test adds nothing: "Ep" is a prefix of it. */
  lemma QualifiesWithoutEpisode(text: string)
    ensures Qualifies(text) <==> text != "" && (HasResolution(text) || Contains(text, "Ep"))
  {
    if Contains(text, "Episode") {
      ContainsPrefixOf(text, "Episode", "Ep");
    }
  }

  /** `streamingServices.some((service) => href.includes(service))`. */
  predicate IsService(href: string) {
    Contains(href, "hubcloud") || Contains(href, "gdflix")
  }

  /** The server name derived from an href. */
  function ServerName(href: string): string {
    if Contains(href, "hubcloud") then "HubCloud"
    else if Contains(href, "gdflix") then "GDFlix"
    else if Contains(href, "pixeldrain") then "Pixeldrain"
    else if Contains(href, "fastdl") then "FastDL"
    else "Play"
  }

  /** Only service hrefs are named, so the Pixeldrain, FastDL and "Play" names never occur. */
  lemma ServiceServerName(href: string)
    requires IsService(href)
    ensures ServerName(href) == "HubCloud" <==> Contains(href, "hubcloud")
    ensures ServerName(href) == "GDFlix" <==> !Contains(href, "hubcloud")
  {
  }

  /** The entry one href after the heading titled `title` pushes, if any. */
  function ServiceEntry(title: string, href: string): (r: Option<EpisodeLink>)
    ensures r.Some? <==> href != "" && IsService(href)
    ensures r.Some? ==> r.value.link == href
    ensures r.Some? && title != "" ==> r.value.title == title + " - " + ServerName(href)
  {
    if href != "" && IsService(href) then
      var serverName := ServerName(href);
      Some(EpisodeLink(if title != "" then title + " - " + serverName else serverName, href))
    else None
  }

  /** The entries of one sibling's hrefs. */
  function SiblingEntries(title: string, hrefs: seq<string>): seq<EpisodeLink> {
    MapDefined(href => ServiceEntry(title, href), hrefs)
  }

  /** The entries of a run of siblings, in order. */
  function SiblingsEntries(title: string, siblings: seq<seq<string>>): seq<EpisodeLink>
    decreases |siblings|
  {
    if |siblings| == 0 then []
    else SiblingsEntries(title, siblings[..|siblings| - 1]) + SiblingEntries(title, siblings[|siblings| - 1])
  }

  lemma SiblingsEntriesStep(title: string, siblings: seq<seq<string>>, j: nat)
    requires j < |siblings|
    ensures SiblingsEntries(title, siblings[..j + 1]) ==
      SiblingsEntries(title, siblings[..j]) + SiblingEntries(title, siblings[j])
  {
    assert siblings[..j + 1][..j] == siblings[..j];
  }

  /** At most ten siblings after the heading's parent are looked at. */
  function Examined(h: Heading): (n: nat)
    ensures n <= 10 && n <= |h.siblings|
    ensures n == 10 || n == |h.siblings|
  {
    if |h.siblings| < 10 then |h.siblings| else 10
  }

  /** The entries one heading contributes. */
  function HeadingEntries(h: Heading): seq<EpisodeLink> {
    var text := Trim(h.text);
    if Qualifies(text) then SiblingsEntries(text, h.siblings[..Examined(h)]) else []
  }

  /** The new layout's entries, heading by heading. */
  function NewFormat(headings: seq<Heading>): seq<EpisodeLink>
    decreases |headings|
  {
    if |headings| == 0 then []
    else NewFormat(headings[..|headings| - 1]) + HeadingEntries(headings[|headings| - 1])
  }

  lemma NewFormatStep(headings: seq<Heading>, h: nat)
    requires h < |headings|
    ensures NewFormat(headings[..h + 1]) == NewFormat(headings[..h]) + HeadingEntries(headings[h])
  {
    assert headings[..h + 1][..h] == headings[..h];
  }

  /** Every new-layout entry of a run of siblings links a service and is titled `<title> - <server>`. */
  lemma {:induction false} SiblingsEntriesShape(title: string, siblings: seq<seq<string>>)
    requires title != ""
    ensures forall e :: e in SiblingsEntries(title, siblings) ==>
      IsService(e.link) && e.title == title + " - " + ServerName(e.link)
    decreases |siblings|
  {
    if |siblings| > 0 {
      var n := |siblings|;
      SiblingsEntriesShape(title, siblings[..n - 1]);
      var f := href => ServiceEntry(title, href);
      MapDefinedFrom(f, siblings[n - 1]);
      forall e | e in SiblingEntries(title, siblings[n - 1])
        ensures IsService(e.link) && e.title == title + " - " + ServerName(e.link)
      {
        var href :| href in siblings[n - 1] && f(href) == Some(e);
        assert ServiceEntry(title, href) == Some(e);
      }
    }
  }

  /** An entry links a service, and its title is a non-empty heading followed by ` - <server>`. */
  predicate TitledAfterServer(e: EpisodeLink) {
    var suffix := " - " + ServerName(e.link);
    IsService(e.link) && |e.title| > |suffix| && e.title[|e.title| - |suffix|..] == suffix
  }

  lemma TitledEntry(text: string, e: EpisodeLink)
    requires text != "" && IsService(e.link) && e.title == text + " - " + ServerName(e.link)
    ensures TitledAfterServer(e)
  {
    assert e.title == text + (" - " + ServerName(e.link));
  }

  /** Every entry of one heading is titled after the heading and its server. */
  lemma HeadingEntriesShape(h: Heading)
    ensures forall e :: e in HeadingEntries(h) ==> TitledAfterServer(e)
  {
    var text := Trim(h.text);
    if Qualifies(text) {
      SiblingsEntriesShape(text, h.siblings[..Examined(h)]);
      forall e | e in HeadingEntries(h) ensures TitledAfterServer(e) {
        TitledEntry(text, e);
      }
    }
  }

  /** Every new-layout entry links a hubcloud or gdflix page and is titled after its heading and server. */
  lemma {:induction false} NewFormatShape(headings: seq<Heading>)
    ensures forall e :: e in NewFormat(headings) ==> TitledAfterServer(e)
    decreases |headings|
  {
    if |headings| > 0 {
      var n := |headings|;
      NewFormatShape(headings[..n - 1]);
      HeadingEntriesShape(headings[n - 1]);
    }
  }

  /** Siblings after the tenth are never examined. */
  lemma HeadingEntriesFirstTen(text: string, first: seq<seq<string>>, more: seq<seq<string>>)
    requires |first| == 10
    ensures HeadingEntries(Heading(text, first + more)) == HeadingEntries(Heading(text, first))
  {
    assert (first + more)[..10] == first == first[..10];
  }

  // ---------------------------------------------------------------------------
  // getEpisodes

  /** The entries `getEpisodes` returns for `url`; never empty. */
  function Episodes(url: string, page: Option<Page>): (r: seq<EpisodeLink>)
    ensures |r| > 0
    ensures page.None? ==> r == [EpisodeLink("Server 1", url)]
    ensures page.Some? && OldFormat(page.value.anchors) != [] ==> r == OldFormat(page.value.anchors)
    ensures page.Some? && OldFormat(page.value.anchors) == [] && NewFormat(page.value.headings) != [] ==>
      r == NewFormat(page.value.headings)
    ensures page.Some? && OldFormat(page.value.anchors) == [] && NewFormat(page.value.headings) == [] ==>
      r == [EpisodeLink("Play", url)]
  {
    match page
    case None => [EpisodeLink("Server 1", url)]
    case Some(p) =>
      var links := if OldFormat(p.anchors) != [] then OldFormat(p.anchors) else NewFormat(p.headings);
      if links != [] then links else [EpisodeLink("Play", url)]
  }

  /** The entries pushed for one sibling's hrefs, in href order. */
  method PushSiblingLinks(currentTitle: string, links: seq<string>) returns (pushed: seq<EpisodeLink>)
    ensures pushed == SiblingEntries(currentTitle, links)
  {
    pushed := [];
    var k := 0;
    while k < |links|
      invariant 0 <= k <= |links|
      invariant pushed == SiblingEntries(currentTitle, links[..k])
    {
      var href := links[k];
      if href != "" && (Contains(href, "hubcloud") || Contains(href, "gdflix")) {
        var serverName := "Play";
        if Contains(href, "hubcloud") {
          serverName := "HubCloud";
        } else if Contains(href, "gdflix") {
          serverName := "GDFlix";
        } else if Contains(href, "pixeldrain") {
          serverName := "Pixeldrain";
        } else if Contains(href, "fastdl") {
          serverName := "FastDL";
        }
        var title := if currentTitle != "" then currentTitle + " - " + serverName else serverName;
        pushed := pushed + [EpisodeLink(title, href)];
      }
      assert links[..k + 1][..k] == links[..k];
      k := k + 1;
    }
    assert links[..k] == links;
  }

  /**
   * The entries pushed for one heading: the walk over at most ten siblings
   * that follow the heading's parent, stopping when none is left.
   */
  method PushHeadingLinks(currentTitle: string, heading: Heading) returns (pushed: seq<EpisodeLink>)
    ensures pushed == SiblingsEntries(currentTitle, heading.siblings[..Examined(heading)])
  {
    pushed := [];
    var siblings := heading.siblings;
    var j := 0;
    while j < 10
      invariant 0 <= j <= 10 && j <= |siblings|
      invariant pushed == SiblingsEntries(currentTitle, siblings[..j])
    {
      if j == |siblings| {
        break;
      }
      SiblingsEntriesStep(currentTitle, siblings, j);
      var links := PushSiblingLinks(currentTitle, siblings[j]);
      pushed := pushed + links;
      j := j + 1;
    }
    assert j == Examined(heading);
  }

  /** The new-layout scan over the headings, in document order. */
  method ScanHeadings(headings: seq<Heading>) returns (episodeLinks: seq<EpisodeLink>)
    ensures episodeLinks == NewFormat(headings)
  {
    episodeLinks := [];
    var currentTitle := "";
    var h := 0;
    while h < |headings|
      invariant 0 <= h <= |headings|
      invariant episodeLinks == NewFormat(headings[..h])
    {
      var text := Trim(headings[h].text);
      NewFormatStep(headings, h);
      if text != "" && (HasResolution(text) || Contains(text, "Ep") || Contains(text, "Episode")) {
        currentTitle := text;
        var links := PushHeadingLinks(currentTitle, headings[h]);
        episodeLinks := episodeLinks + links;
      }
      h := h + 1;
    }
    assert headings[..h] == headings;
  }

  /** `getEpisodes`: the old layout first, the new layout when that finds nothing, and a fallback entry. */
  method GetEpisodes(url: string, page: Option<Page>) returns (episodeLinks: seq<EpisodeLink>)
    ensures episodeLinks == Episodes(url, page)
  {
    if page.None? {
      return [EpisodeLink("Server 1", url)];
    }
    var anchors := page.value.anchors;
    episodeLinks := [];
    var i := 0;
    while i < |anchors|
      invariant 0 <= i <= |anchors|
      invariant episodeLinks == OldFormat(anchors[..i])
    {
      var title := anchors[i].title;
      var link := anchors[i].href;
      if link.Some? && link.value != "" && (Contains(title, "Ep") || Contains(title, "Download")) {
        episodeLinks := episodeLinks + [EpisodeLink(if Contains(title, "Download") then "Play" else title, link.value)];
      }
      assert anchors[..i + 1][..i] == anchors[..i];
      i := i + 1;
    }
    assert anchors[..i] == anchors;

    if |episodeLinks| == 0 {
      episodeLinks := ScanHeadings(page.value.headings);
    }
    if |episodeLinks| == 0 {
      episodeLinks := [EpisodeLink("Play", url)];
    }
  }
}
