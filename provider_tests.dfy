/**
 * The provider integration tester (`test-providers.js`): which built
 * providers are tested, how one provider's five steps (catalog, posts, meta,
 * episodes, stream) are run and tallied, how the verdicts of all providers
 * are counted, and how the command line is read.
 *
 * The provider modules are inputs: whether each module and function exists,
 * and what each call returns or the message it throws. Random picks take the
 * array's own order (one of the orders the shuffle can produce).
 */
module ProviderTests {
  import opened Values
  import opened JsText

  /** The outcome of calling into a provider: a value, or the message of what it threw. */
  datatype Call<T> = Threw(message: string) | Returned(value: T)

  function Min(a: int, b: int): int {
    if a < b then a else b
  }

  // ---------------------------------------------------------------------------
  // Options and the tester

  /** `options.x || d` for a numeric option; None is `undefined` (or NaN). */
  function OrDefault(v: Option<int>, d: int): (r: int)
    ensures d != 0 ==> r != 0
    ensures v.Some? && v.value != 0 ==> r == v.value
    ensures r != d ==> v.Some? && r == v.value
  {
    if v.Some? && v.value != 0 then v.value else d
  }

  datatype Options = Options(timeout: Option<int>, postsToTest: Option<int>, linksToTest: Option<int>)

  /** A provider's step record: `{success, error, skipped}`; "" stands for a null or empty error. */
  datatype Step = Step(success: bool, error: string, skipped: bool)

  const NotRun := Step(false, "", false)

  datatype Summary = Summary(passed: nat, failed: nat, skipped: nat)

  /** The result of testing one provider. */
  datatype TestResult = TestResult(
    provider: string,
    catalog: Step, posts: Step, meta: Step, episodes: Step, stream: Step,
    summary: Summary)

  /** What `testAllProviders` records per provider: the test result, or a critical error. */
  datatype Report = Tested(result: TestResult) | Critical(message: string)

  // ---------------------------------------------------------------------------
  // Provider discovery

  /** An entry of `dist/`: its name, whether it is a directory, and the files it holds. */
  datatype DistEntry = DistEntry(name: string, isDirectory: bool, files: set<string>)

  /** A manifest entry: its `value`, and its `disabled` field when that is a boolean. */
  datatype ManifestEntry = ManifestEntry(value: string, disabled: Option<bool>)

  /** The values of the manifest entries with `disabled === true`. */
  function DisabledProviders(manifest: seq<ManifestEntry>): seq<string> {
    MapDefined((p: ManifestEntry) => if p.disabled == Some(true) then Some(p.value) else None, manifest)
  }

  /** The modules a provider must have been built with; `episodes.js` is optional. */
  predicate HasRequired(files: set<string>) {
    "catalog.js" in files && "posts.js" in files && "meta.js" in files && "stream.js" in files
  }

  function Available(disabled: seq<string>, d: DistEntry): Option<string> {
    if d.isDirectory && d.name !in disabled && HasRequired(d.files) then Some(d.name) else None
  }

  /** `getAvailableProviders()`: [] without a `dist/` folder; a missing or unreadable manifest is []. */
  function GetAvailableProviders(distExists: bool, entries: seq<DistEntry>, manifest: seq<ManifestEntry>)
    : (names: seq<string>)
    ensures !distExists ==> names == []
    ensures |names| <= |entries|
  {
    if !distExists then []
    else
      var disabled := DisabledProviders(manifest);
      MapDefined(d => Available(disabled, d), entries)
  }

  /** A name is disabled exactly when some manifest entry with that value has `disabled === true`. */
  lemma DisabledExactly(manifest: seq<ManifestEntry>, name: string)
    ensures name in DisabledProviders(manifest) <==>
      exists p :: p in manifest && p.value == name && p.disabled == Some(true)
  {
    var f := (p: ManifestEntry) => if p.disabled == Some(true) then Some(p.value) else None;
    MapDefinedFrom(f, manifest);
    if exists p :: p in manifest && p.value == name && p.disabled == Some(true) {
      var p :| p in manifest && p.value == name && p.disabled == Some(true);
      MapDefinedTo(f, manifest, p);
    }
  }

  /** A provider is tested exactly when it is a directory of `dist/`, not disabled, with the four required modules. */
  lemma AvailableExactly(entries: seq<DistEntry>, manifest: seq<ManifestEntry>, name: string)
    ensures name in GetAvailableProviders(true, entries, manifest) <==>
      (exists d :: d in entries && d.name == name && d.isDirectory && HasRequired(d.files)) &&
      !(exists p :: p in manifest && p.value == name && p.disabled == Some(true))
  {
    var disabled := DisabledProviders(manifest);
    var f := d => Available(disabled, d);
    DisabledExactly(manifest, name);
    MapDefinedFrom(f, entries);
    if (exists d :: d in entries && d.name == name && d.isDirectory && HasRequired(d.files)) &&
       name !in disabled {
      var d :| d in entries && d.name == name && d.isDirectory && HasRequired(d.files);
      MapDefinedTo(f, entries, d);
    }
  }

  // ---------------------------------------------------------------------------
  // Random picks

  /** `pickRandom(arr, count)`: one element when `count === 1`, else `slice(0, count)`. */
  datatype Pick<T> = One(item: Option<T>) | Many(items: seq<T>)

  function PickRandom<T>(arr: seq<T>, count: int): (r: Pick<T>)
    ensures r.One? <==> count == 1
    ensures r.One? ==> r.item == if |arr| > 0 then Some(arr[0]) else None
    ensures r.Many? ==> r.items == arr[..SliceEnd(|arr|, count)]
  {
    if count == 1 then One(if |arr| > 0 then Some(arr[0]) else None)
    else Many(arr[..SliceEnd(|arr|, count)])
  }

  /** `Array.isArray(p) ? p : [p]`: what a `for ... of` over the pick visits once wrapped. */
  function AsArray<T>(p: Pick<T>): seq<T> {
    match p
    case One(Some(x)) => [x]
    case One(None) => []
    case Many(xs) => xs
  }

  /** A post as `getPosts` returns it. */
  datatype Post = Post(title: string, link: string)

  /**
   * The posts the meta step iterates, as written: `for (const post of
   * pickRandom(posts, n))`. None is the TypeError thrown when the pick is a
   * single post, which is not iterable.
   */
  function MetaTargetsAsWritten(posts: seq<Post>, count: int): Option<seq<Post>> {
    match PickRandom(posts, count)
    case One(_) => None
    case Many(xs) => Some(xs)
  }

  /** When only one post is to be tested, the as-written meta step throws before calling `getMeta`. */
  lemma SinglePostNotIterable(posts: seq<Post>, postsToTest: int)
    requires |posts| > 0 && Min(postsToTest, |posts|) == 1
    ensures MetaTargetsAsWritten(posts, Min(postsToTest, |posts|)).None?
  {
  }

  /** `--posts=1` (the help text's quick test) with two posts: no post reaches `getMeta`. */
  lemma QuickTestMetaThrows(a: Post, b: Post)
    ensures MetaTargetsAsWritten([a, b], Min(1, 2)).None?
  {
  }

  /** The posts the meta step iterates, with the single pick wrapped as the direct-links step does. */
  function MetaTargets(posts: seq<Post>, count: int): (r: seq<Post>)
    ensures |posts| > 0 && count >= 1 ==> r == posts[..Min(count, |posts|)] && |r| >= 1
  {
    AsArray(PickRandom(posts, count))
  }

  // ---------------------------------------------------------------------------
  // Meta results and link routing

  /** A `linkList` entry: its `episodesLink` ("" when absent) and its `directLinks`. */
  datatype LinkInfo = LinkInfo(title: string, episodesLink: string, directLinks: seq<DirectLink>)

  /** A direct link: its `type` is `kind`, "" when absent. */
  datatype DirectLink = DirectLink(title: string, link: string, kind: string)

  datatype Episode = Episode(title: string, link: string)

  /** What `getMeta` gives for one post: its `linkList`, or None when `meta` or `linkList` is missing. */
  function MetaLinks(c: Call<Option<seq<LinkInfo>>>): Option<seq<LinkInfo>> {
    match c
    case Returned(Some(links)) => Some(links)
    case _ => None
  }

  /** The meta results, in post order: posts whose `getMeta` throws or lacks a `linkList` are skipped. */
  function MetaResults(targets: seq<Post>, getMeta: string -> Call<Option<seq<LinkInfo>>>)
    : seq<seq<LinkInfo>>
  {
    MapDefined((post: Post) => MetaLinks(getMeta(post.link)), targets)
  }

  method CollectMeta(targets: seq<Post>, getMeta: string -> Call<Option<seq<LinkInfo>>>)
    returns (metaResults: seq<seq<LinkInfo>>)
    ensures metaResults == MetaResults(targets, getMeta)
  {
    metaResults := [];
    var i := 0;
    while i < |targets|
      invariant 0 <= i <= |targets|
      invariant metaResults == MetaResults(targets[..i], getMeta)
    {
      match getMeta(targets[i].link) {
        case Threw(_) =>
        case Returned(meta) =>
          if meta.Some? {
            metaResults := metaResults + [meta.value];
          }
      }
      assert targets[..i + 1][..i] == targets[..i];
      i := i + 1;
    }
    assert targets[..i] == targets;
  }

  function Flatten(ms: seq<seq<LinkInfo>>): seq<LinkInfo>
    decreases |ms|
  {
    if |ms| == 0 then [] else Flatten(ms[..|ms| - 1]) + ms[|ms| - 1]
  }

  lemma FlattenIn(ms: seq<seq<LinkInfo>>, i: nat, link: LinkInfo)
    requires i < |ms| && link in ms[i]
    ensures link in Flatten(ms)
    decreases |ms|
  {
    if i < |ms| - 1 {
      FlattenIn(ms[..|ms| - 1], i, link);
    }
  }

  predicate HasEpisodes(link: LinkInfo) {
    link.episodesLink != ""
  }

  predicate HasDirect(link: LinkInfo) {
    |link.directLinks| > 0
  }

  function EpisodeEntries(links: seq<LinkInfo>): seq<LinkInfo> {
    MapDefined((l: LinkInfo) => if HasEpisodes(l) then Some(l) else None, links)
  }

  function DirectEntries(links: seq<LinkInfo>): seq<LinkInfo> {
    MapDefined((l: LinkInfo) => if HasDirect(l) then Some(l) else None, links)
  }

  /** The two lists are filters of the same links: one link can land in both. */
  lemma RoutingMembership(links: seq<LinkInfo>, link: LinkInfo)
    ensures link in EpisodeEntries(links) <==> link in links && HasEpisodes(link)
    ensures link in DirectEntries(links) <==> link in links && HasDirect(link)
  {
    var fe := (l: LinkInfo) => if HasEpisodes(l) then Some(l) else None;
    var fd := (l: LinkInfo) => if HasDirect(l) then Some(l) else None;
    MapDefinedFrom(fe, links);
    MapDefinedFrom(fd, links);
    if link in links && HasEpisodes(link) {
      MapDefinedTo(fe, links, link);
    }
    if link in links && HasDirect(link) {
      MapDefinedTo(fd, links, link);
    }
  }

  /** Routing one more link appends it to each list whose filter it passes. */
  lemma RouteStep(xs: seq<LinkInfo>, link: LinkInfo)
    ensures EpisodeEntries(xs + [link]) == EpisodeEntries(xs) + if HasEpisodes(link) then [link] else []
    ensures DirectEntries(xs + [link]) == DirectEntries(xs) + if HasDirect(link) then [link] else []
  {
    assert (xs + [link])[..|xs|] == xs;
  }

  /** `for (const link of meta.linkList) ...`: one meta result's links appended to the two lists. */
  method RouteList(done: seq<LinkInfo>, linkList: seq<LinkInfo>, episodesSoFar: seq<LinkInfo>, directSoFar: seq<LinkInfo>)
    returns (episodeLinks: seq<LinkInfo>, directLinks: seq<LinkInfo>)
    requires episodesSoFar == EpisodeEntries(done) && directSoFar == DirectEntries(done)
    ensures episodeLinks == EpisodeEntries(done + linkList)
    ensures directLinks == DirectEntries(done + linkList)
  {
    episodeLinks, directLinks := episodesSoFar, directSoFar;
    var k := 0;
    assert done + linkList[..0] == done;
    while k < |linkList|
      invariant 0 <= k <= |linkList|
      invariant episodeLinks == EpisodeEntries(done + linkList[..k])
      invariant directLinks == DirectEntries(done + linkList[..k])
    {
      var link := linkList[k];
      if link.episodesLink != "" {
        episodeLinks := episodeLinks + [link];
      }
      if |link.directLinks| > 0 {
        directLinks := directLinks + [link];
      }
      RouteStep(done + linkList[..k], link);
      assert done + linkList[..k + 1] == (done + linkList[..k]) + [link];
      k := k + 1;
    }
    assert linkList[..k] == linkList;
  }

  /** `for (const { meta } of metaResults) for (const link of meta.linkList) ...`: both lists, in order. */
  method RouteLinks(metaResults: seq<seq<LinkInfo>>)
    returns (episodeLinks: seq<LinkInfo>, directLinks: seq<LinkInfo>)
    ensures episodeLinks == EpisodeEntries(Flatten(metaResults))
    ensures directLinks == DirectEntries(Flatten(metaResults))
  {
    episodeLinks, directLinks := [], [];
    var i := 0;
    while i < |metaResults|
      invariant 0 <= i <= |metaResults|
      invariant episodeLinks == EpisodeEntries(Flatten(metaResults[..i]))
      invariant directLinks == DirectEntries(Flatten(metaResults[..i]))
    {
      episodeLinks, directLinks := RouteList(Flatten(metaResults[..i]), metaResults[i], episodeLinks, directLinks);
      assert metaResults[..i + 1][..i] == metaResults[..i];
      i := i + 1;
    }
    assert metaResults[..i] == metaResults;
  }

  // ---------------------------------------------------------------------------
  // The summary tally

  /** The five steps, in the order the summary visits them. */
  function StepsOf(r: TestResult): seq<Step> {
    [r.catalog, r.posts, r.meta, r.episodes, r.stream]
  }

  /** Which counter a step adds to, if any: success first, then skipped, then a (truthy) error. */
  function Count(s: Summary, step: Step): Summary {
    if step.success then s.(passed := s.passed + 1)
    else if step.skipped then s.(skipped := s.skipped + 1)
    else if step.error != "" then s.(failed := s.failed + 1)
    else s
  }

  function Tally(steps: seq<Step>): Summary
    decreases |steps|
  {
    if |steps| == 0 then Summary(0, 0, 0) else Count(Tally(steps[..|steps| - 1]), steps[|steps| - 1])
  }

  /** A step with an error that neither succeeded nor was skipped fails the provider. */
  predicate Fails(step: Step) {
    !step.success && !step.skipped && step.error != ""
  }

  /** Each step adds to at most one counter, and each counter counts exactly its steps. */
  lemma {:induction false} TallyCounts(steps: seq<Step>)
    ensures Tally(steps).passed + Tally(steps).skipped + Tally(steps).failed <= |steps|
    ensures Tally(steps).failed == 0 <==> forall i :: 0 <= i < |steps| ==> !Fails(steps[i])
    ensures Tally(steps).passed == 0 <==> forall i :: 0 <= i < |steps| ==> !steps[i].success
    decreases |steps|
  {
    if |steps| > 0 {
      var init := steps[..|steps| - 1];
      TallyCounts(init);
      assert forall i :: 0 <= i < |init| ==> init[i] == steps[i];
    }
  }

  /** The overall status printed for a provider. */
  function Status(s: Summary): string {
    if s.failed == 0 then "PASSED" else "FAILED"
  }

  /** A provider passes exactly when none of its five steps fails, and at most five counts are made. */
  lemma StatusPassed(r: TestResult)
    ensures Tally(StepsOf(r)).passed + Tally(StepsOf(r)).skipped + Tally(StepsOf(r)).failed <= 5
    ensures Status(Tally(StepsOf(r))) == "PASSED" <==>
      !Fails(r.catalog) && !Fails(r.posts) && !Fails(r.meta) && !Fails(r.episodes) && !Fails(r.stream)
  {
    TallyCounts(StepsOf(r));
    var steps := StepsOf(r);
    assert steps[0] == r.catalog && steps[1] == r.posts && steps[2] == r.meta;
    assert steps[3] == r.episodes && steps[4] == r.stream;
  }

  /** `for (const step of steps) ...`: the summary counters, incremented in step order. */
  method TallySteps(steps: seq<Step>) returns (summary: Summary)
    ensures summary == Tally(steps)
  {
    summary := Summary(0, 0, 0);
    for i := 0 to |steps|
      invariant summary == Tally(steps[..i])
    {
      var step := steps[i];
      if step.success {
        summary := summary.(passed := summary.passed + 1);
      } else if step.skipped {
        summary := summary.(skipped := summary.skipped + 1);
      } else if step.error != "" {
        summary := summary.(failed := summary.failed + 1);
      }
      assert steps[..i + 1][..i] == steps[..i];
    }
    assert steps[..|steps|] == steps;
  }

  // ---------------------------------------------------------------------------
  // Error attribution

  /** The catch block: the message goes to the first of catalog, posts and meta not yet successful. */
  function Attribute(r: TestResult, message: string): (a: TestResult)
    ensures a.provider == r.provider && a.episodes == r.episodes && a.stream == r.stream
    ensures a.summary == r.summary
    ensures a.catalog == if r.catalog.success then r.catalog else r.catalog.(error := message)
    ensures a.posts == if !r.catalog.success || r.posts.success then r.posts else r.posts.(error := message)
    ensures a.meta ==
      if !r.catalog.success || !r.posts.success || r.meta.success then r.meta else r.meta.(error := message)
  {
    if !r.catalog.success then r.(catalog := r.catalog.(error := message))
    else if !r.posts.success then r.(posts := r.posts.(error := message))
    else if !r.meta.success then r.(meta := r.meta.(error := message))
    else r
  }

  // ---------------------------------------------------------------------------
  // One provider

  /**
   * A provider's modules as the tester finds them: the catalog's length (None
   * when the module is missing), and each function (None when its module or
   * the function is missing) with what it returns for each argument. A
   * result that is not an array counts as empty.
   */
  datatype Env = Env(
    catalog: Option<nat>,
    getPosts: Option<Call<seq<Post>>>,
    getMeta: Option<string -> Call<Option<seq<LinkInfo>>>>,
    getEpisodes: Option<string -> Call<seq<Episode>>>,
    getStream: Option<(string, string) -> Call<nat>>)

  /** A stream call that returned at least one stream. */
  predicate StreamOk(c: Call<nat>) {
    c.Returned? && c.value > 0
  }

  /** The direct links tried: a pick of the first direct-link entry's `directLinks`, wrapped. */
  function DirectTargets(directLinks: seq<LinkInfo>, linksToTest: int): seq<DirectLink>
    requires |directLinks| > 0
  {
    var dls := directLinks[0].directLinks;
    AsArray(PickRandom(dls, Min(linksToTest, |dls|)))
  }

  /** `getStream` on a direct link, with its `type || "movie"`. */
  function Attempt(getStream: (string, string) -> Call<nat>, target: DirectLink): Call<nat> {
    getStream(target.link, Or(target.kind, "movie"))
  }

  /** Some direct link among the first `n` targets yields a stream. */
  predicate SomeDirectStream(targets: seq<DirectLink>, n: nat, getStream: (string, string) -> Call<nat>)
    requires n <= |targets|
  {
    exists k :: 0 <= k < n && StreamOk(Attempt(getStream, targets[k]))
  }

  // ---------------------------------------------------------------------------
  // How far the first three steps get

  /** A catalog module with at least one filter. */
  predicate CatalogOk(env: Env) {
    env.catalog.Some? && env.catalog.value > 0
  }

  /** The catalog step succeeded and `getPosts` exists and returned a non-empty array. */
  predicate PostsOk(env: Env) {
    CatalogOk(env) && env.getPosts.Some? && env.getPosts.value.Returned? && |env.getPosts.value.value| > 0
  }

  /** The meta results of a provider whose posts step succeeded and that has `getMeta`. */
  function MetaOf(env: Env, postsToTest: int): seq<seq<LinkInfo>>
    requires PostsOk(env) && env.getMeta.Some?
  {
    var posts := env.getPosts.value.value;
    MetaResults(MetaTargets(posts, Min(postsToTest, |posts|)), env.getMeta.value)
  }

  /**
   * Where catalog, posts and meta end: `Stopped(k, m)` when the first `k` of
   * them succeeded and the next one threw `m`; `Routed` when all three
   * succeeded, with the two link lists of step 4.
   */
  datatype Reach = Stopped(succeeded: nat, message: string)
                 | Routed(episodeLinks: seq<LinkInfo>, directLinks: seq<LinkInfo>)

  function FirstSteps(env: Env, postsToTest: int): (p: Reach)
    ensures p.Stopped? ==> p.succeeded < 3
    ensures p.Stopped? && p.succeeded == 0 <==> !CatalogOk(env)
    ensures p.Stopped? && p.succeeded <= 1 <==> !PostsOk(env)
    ensures p.Routed? <==> PostsOk(env) && env.getMeta.Some? && |MetaOf(env, postsToTest)| > 0
    ensures p.Routed? ==> p.episodeLinks == EpisodeEntries(Flatten(MetaOf(env, postsToTest)))
    ensures p.Routed? ==> p.directLinks == DirectEntries(Flatten(MetaOf(env, postsToTest)))
  {
    if env.catalog.None? then Stopped(0, "Catalog module not found")
    else if env.catalog.value == 0 then Stopped(0, "No filters found in catalog")
    else if env.getPosts.None? then Stopped(1, "getPosts function not found")
    else
      match env.getPosts.value
      case Threw(m) => Stopped(1, m)
      case Returned(posts) =>
        if |posts| == 0 then Stopped(1, "getPosts returned empty or invalid result")
        else if env.getMeta.None? then Stopped(2, "getMeta function not found")
        else
          var metaResults := MetaOf(env, postsToTest);
          if |metaResults| == 0 then Stopped(2, "No valid meta data retrieved")
          else Routed(EpisodeEntries(Flatten(metaResults)), DirectEntries(Flatten(metaResults)))
  }

  /** A fresh result for `provider` in which only the first `k` of catalog, posts and meta succeeded. */
  function Succeeded(provider: string, k: nat): (r: TestResult)
    ensures r.catalog.success <==> k >= 1
    ensures r.posts.success <==> k >= 2
    ensures r.meta.success <==> k >= 3
    ensures r.provider == provider && r.episodes == NotRun && r.stream == NotRun
    ensures !r.catalog.skipped && !r.posts.skipped && !r.meta.skipped
    ensures r.catalog.error == "" && r.posts.error == "" && r.meta.error == ""
  {
    TestResult(provider, NotRun.(success := k >= 1), NotRun.(success := k >= 2), NotRun.(success := k >= 3),
               NotRun, NotRun, Summary(0, 0, 0))
  }

  /** Step `k` of catalog, posts and meta. */
  function StepAt(r: TestResult, k: nat): Step
    requires k < 3
  {
    if k == 0 then r.catalog else if k == 1 then r.posts else r.meta
  }

  /** A stop with a non-empty message fails the provider: the step that threw counts as failed. */
  lemma StoppedFails(r: TestResult, k: nat)
    requires k < 3 && Fails(StepAt(r, k))
    ensures Tally(StepsOf(r)).failed > 0
  {
    StatusPassed(r);
  }

  /**
   * What step 4 promises for the two link lists: the episodes test is
   * skipped exactly when there is no episode link or no `getEpisodes`; the
   * stream test is skipped exactly when there are no links at all; and when
   * the direct links are tried, the stream step succeeds exactly when one of
   * the picked direct links yields a stream.
   */
  predicate LinksTested(episodeLinks: seq<LinkInfo>, directLinks: seq<LinkInfo>, env: Env, linksToTest: int,
                        episodes: Step, stream: Step)
  {
    (episodes.skipped <==> |episodeLinks| == 0 || env.getEpisodes.None?) &&
    (episodes.success ==> |episodeLinks| > 0 && env.getEpisodes.Some?) &&
    (stream.skipped <==> |episodeLinks| == 0 && |directLinks| == 0) &&
    (stream.skipped ==> !stream.success) &&
    (stream.success ==> episodes.success || |directLinks| > 0) &&
    (|directLinks| > 0 && !episodes.success && env.getStream.Some? ==>
      (stream.success <==>
        SomeDirectStream(DirectTargets(directLinks, linksToTest),
                         |DirectTargets(directLinks, linksToTest)|, env.getStream.value)))
  }

  // ---------------------------------------------------------------------------
  // Step 4 as specification functions

  /** The episodes and stream records after step 4. */
  datatype Linked = Linked(episodes: Step, stream: Step)

  /** The stream test on the picked episode: nothing is recorded without `getStream`. */
  function EpisodeStream(episode: Episode, env: Env): Step {
    if env.getStream.None? then NotRun
    else
      match env.getStream.value(episode.link, "series")
      case Threw(m) => NotRun.(error := m)
      case Returned(n) => if n > 0 then NotRun.(success := true) else NotRun.(error := "No streams returned")
  }

  /** The episodes test on the first episode link, and the stream test on its first episode. */
  function EpisodesStep(episodeLinks: seq<LinkInfo>, env: Env): Linked {
    if |episodeLinks| == 0 then Linked(NotRun.(skipped := true), NotRun)
    else if env.getEpisodes.None? then Linked(NotRun.(skipped := true, error := "Function not available"), NotRun)
    else
      match env.getEpisodes.value(episodeLinks[0].episodesLink)
      case Threw(m) => Linked(NotRun.(error := m), NotRun)
      case Returned(eps) =>
        if |eps| == 0 then Linked(NotRun.(error := "No episodes returned"), NotRun)
        else Linked(NotRun.(success := true), EpisodeStream(eps[0], env))
  }

  /**
   * The direct-link loop, continuing the stream record `stream`: the first
   * link that yields a stream marks success and ends the loop, and every
   * link that throws records its message.
   */
  function DirectLoop(targets: seq<DirectLink>, getStream: (string, string) -> Call<nat>, stream: Step): Step
    decreases |targets|
  {
    if |targets| == 0 then stream
    else
      match Attempt(getStream, targets[0])
      case Returned(n) => if n > 0 then stream.(success := true) else DirectLoop(targets[1..], getStream, stream)
      case Threw(m) => DirectLoop(targets[1..], getStream, stream.(error := m))
  }

  /** Step 4: the episodes test, then the direct links when some exist and no stream has succeeded. */
  function LinksOutcome(episodeLinks: seq<LinkInfo>, directLinks: seq<LinkInfo>, env: Env, linksToTest: int): Linked {
    var first := EpisodesStep(episodeLinks, env);
    if |directLinks| > 0 && !first.stream.success then
      if env.getStream.Some? then
        first.(stream := DirectLoop(DirectTargets(directLinks, linksToTest), env.getStream.value, first.stream))
      else first.(stream := first.stream.(error := "Function not available"))
    else if !first.stream.success && |directLinks| == 0 && |episodeLinks| == 0 then
      first.(stream := first.stream.(skipped := true))
    else first
  }

  /** `getEpisodes` exists and returned at least one episode for the first episode link. */
  predicate EpisodesOk(episodeLinks: seq<LinkInfo>, env: Env) {
    if |episodeLinks| == 0 || env.getEpisodes.None? then false
    else
      var c := env.getEpisodes.value(episodeLinks[0].episodesLink);
      c.Returned? && |c.value| > 0
  }

  /** The episode whose stream is tested. */
  function FirstEpisode(episodeLinks: seq<LinkInfo>, env: Env): Episode
    requires EpisodesOk(episodeLinks, env)
  {
    env.getEpisodes.value(episodeLinks[0].episodesLink).value[0]
  }

  /** The stream test on that episode returned at least one stream. */
  predicate EpisodeStreamOk(episodeLinks: seq<LinkInfo>, env: Env) {
    EpisodesOk(episodeLinks, env) && env.getStream.Some? &&
    StreamOk(env.getStream.value(FirstEpisode(episodeLinks, env).link, "series"))
  }

  /** `getStream` exists and one of the picked direct links yields a stream. */
  predicate DirectOk(directLinks: seq<LinkInfo>, env: Env, linksToTest: int) {
    if |directLinks| == 0 || env.getStream.None? then false
    else
      var targets := DirectTargets(directLinks, linksToTest);
      SomeDirectStream(targets, |targets|, env.getStream.value)
  }

  /** The loop succeeds exactly when some link yields a stream; when no link throws, the error is kept. */
  lemma {:induction false} DirectLoopSuccess(targets: seq<DirectLink>, getStream: (string, string) -> Call<nat>,
                                             stream: Step)
    ensures DirectLoop(targets, getStream, stream).success <==>
      stream.success || SomeDirectStream(targets, |targets|, getStream)
    ensures DirectLoop(targets, getStream, stream).skipped == stream.skipped
    ensures (forall k :: 0 <= k < |targets| ==> Attempt(getStream, targets[k]).Returned?) ==>
      DirectLoop(targets, getStream, stream).error == stream.error
    decreases |targets|
  {
    if |targets| > 0 {
      var rest := targets[1..];
      var c := Attempt(getStream, targets[0]);
      var next := if c.Threw? then stream.(error := c.message) else stream;
      DirectLoopSuccess(rest, getStream, next);
      assert forall k :: 0 <= k < |rest| ==> rest[k] == targets[k + 1];
      if SomeDirectStream(targets, |targets|, getStream) && !StreamOk(c) {
        var k :| 0 <= k < |targets| && StreamOk(Attempt(getStream, targets[k]));
        assert StreamOk(Attempt(getStream, rest[k - 1]));
      }
      if SomeDirectStream(rest, |rest|, getStream) {
        var k :| 0 <= k < |rest| && StreamOk(Attempt(getStream, rest[k]));
        assert StreamOk(Attempt(getStream, targets[k + 1]));
      }
    }
  }

  /** When no link yields a stream, the error is the message of the last link that threw. */
  lemma {:induction false} DirectLoopLastError(targets: seq<DirectLink>, getStream: (string, string) -> Call<nat>,
                                               stream: Step, k: nat)
    requires k < |targets| && Attempt(getStream, targets[k]).Threw?
    requires forall j :: k < j < |targets| ==> Attempt(getStream, targets[j]).Returned?
    requires !DirectLoop(targets, getStream, stream).success
    ensures DirectLoop(targets, getStream, stream).error == Attempt(getStream, targets[k]).message
    decreases |targets|
  {
    var rest := targets[1..];
    var c := Attempt(getStream, targets[0]);
    var next := if c.Threw? then stream.(error := c.message) else stream;
    assert forall j :: 0 <= j < |rest| ==> rest[j] == targets[j + 1];
    if k == 0 {
      DirectLoopSuccess(rest, getStream, next);
    } else {
      assert !StreamOk(c);
      DirectLoopLastError(rest, getStream, next, k - 1);
    }
  }

  /**
   * The episodes record: success exactly when `getEpisodes` returned
   * episodes, skipped exactly without episode links or `getEpisodes`, and
   * the error of each way it can fail.
   */
  lemma LinksOutcomeEpisodes(episodeLinks: seq<LinkInfo>, directLinks: seq<LinkInfo>, env: Env, linksToTest: int)
    ensures var e := LinksOutcome(episodeLinks, directLinks, env, linksToTest).episodes;
      (e.success <==> EpisodesOk(episodeLinks, env)) &&
      (e.skipped <==> |episodeLinks| == 0 || env.getEpisodes.None?) &&
      (e.success || |episodeLinks| == 0 ==> e.error == "")
    ensures |episodeLinks| > 0 && env.getEpisodes.None? ==>
      LinksOutcome(episodeLinks, directLinks, env, linksToTest).episodes.error == "Function not available"
    ensures |episodeLinks| > 0 && env.getEpisodes.Some? ==>
      var e := LinksOutcome(episodeLinks, directLinks, env, linksToTest).episodes;
      match env.getEpisodes.value(episodeLinks[0].episodesLink)
      case Threw(m) => e.error == m
      case Returned(eps) => |eps| == 0 ==> e.error == "No episodes returned"
  {
  }

  /**
   * The stream record: success exactly when the episode's stream or a picked
   * direct link yields a stream, skipped exactly without any link, and the
   * error of each way it can fail.
   */
  lemma LinksOutcomeStream(episodeLinks: seq<LinkInfo>, directLinks: seq<LinkInfo>, env: Env, linksToTest: int)
    ensures var s := LinksOutcome(episodeLinks, directLinks, env, linksToTest).stream;
      (s.success <==> EpisodeStreamOk(episodeLinks, env) || DirectOk(directLinks, env, linksToTest)) &&
      (s.skipped <==> |episodeLinks| == 0 && |directLinks| == 0) &&
      (s.skipped ==> s.error == "")
    ensures |directLinks| > 0 && env.getStream.None? ==>
      LinksOutcome(episodeLinks, directLinks, env, linksToTest).stream.error == "Function not available"
    ensures |directLinks| > 0 && env.getStream.Some? && !EpisodeStreamOk(episodeLinks, env) ==>
      LinksOutcome(episodeLinks, directLinks, env, linksToTest).stream ==
      DirectLoop(DirectTargets(directLinks, linksToTest), env.getStream.value, EpisodesStep(episodeLinks, env).stream)
    ensures |directLinks| == 0 && EpisodesOk(episodeLinks, env) && env.getStream.Some? ==>
      var s := LinksOutcome(episodeLinks, directLinks, env, linksToTest).stream;
      match env.getStream.value(FirstEpisode(episodeLinks, env).link, "series")
      case Threw(m) => s.error == m
      case Returned(n) => n == 0 ==> s.error == "No streams returned"
  {
    var first := EpisodesStep(episodeLinks, env);
    assert first.stream.success <==> EpisodeStreamOk(episodeLinks, env);
    assert !first.stream.skipped;
    if |directLinks| > 0 && !first.stream.success && env.getStream.Some? {
      DirectLoopSuccess(DirectTargets(directLinks, linksToTest), env.getStream.value, first.stream);
    }
  }

  /** Step 4's records meet what `LinksTested` promises. */
  lemma LinksOutcomeTested(episodeLinks: seq<LinkInfo>, directLinks: seq<LinkInfo>, env: Env, linksToTest: int)
    ensures var l := LinksOutcome(episodeLinks, directLinks, env, linksToTest);
      LinksTested(episodeLinks, directLinks, env, linksToTest, l.episodes, l.stream)
  {
    LinksOutcomeEpisodes(episodeLinks, directLinks, env, linksToTest);
    LinksOutcomeStream(episodeLinks, directLinks, env, linksToTest);
  }

  // ---------------------------------------------------------------------------
  // One provider as a specification function

  /** What `testProvider` returns for a provider with these modules. */
  function ProviderOutcome(provider: string, env: Env, postsToTest: int, linksToTest: int): (r: TestResult)
    ensures r.provider == provider && r.summary == Tally(StepsOf(r))
  {
    var steps := (
      match FirstSteps(env, postsToTest)
      case Stopped(k, message) => Attribute(Succeeded(provider, k), message)
      case Routed(episodeLinks, directLinks) =>
        var l := LinksOutcome(episodeLinks, directLinks, env, linksToTest);
        Succeeded(provider, 3).(episodes := l.episodes, stream := l.stream));
    steps.(summary := Tally(StepsOf(steps)))
  }

  /**
   * A provider passes exactly when, after catalog, posts and meta got
   * through, neither the episodes nor the stream record fails; or when the
   * step that stopped them threw an empty message.
   */
  lemma ProviderPasses(provider: string, env: Env, postsToTest: int, linksToTest: int)
    ensures ProviderOutcome(provider, env, postsToTest, linksToTest).summary.failed == 0 <==>
      match FirstSteps(env, postsToTest)
      case Stopped(_, message) => message == ""
      case Routed(episodeLinks, directLinks) =>
        !Fails(LinksOutcome(episodeLinks, directLinks, env, linksToTest).episodes) &&
        !Fails(LinksOutcome(episodeLinks, directLinks, env, linksToTest).stream)
  {
    var r := ProviderOutcome(provider, env, postsToTest, linksToTest);
    StatusPassed(r);
    match FirstSteps(env, postsToTest)
    case Stopped(k, message) =>
      assert Fails(StepAt(r, k)) <==> message != "";
    case Routed(_, _) =>
  }

  // ---------------------------------------------------------------------------
  // Counting the providers

  /** A report counted as passed: a test run whose summary has no failed step. */
  predicate Passes(r: Report) {
    r.Tested? && r.result.summary.failed == 0
  }

  /** How many of the reports pass. */
  function CountPassing(reports: seq<Report>): (n: nat)
    ensures n <= |reports|
    decreases |reports|
  {
    if |reports| == 0 then 0
    else CountPassing(reports[..|reports| - 1]) + (if Passes(reports[|reports| - 1]) then 1 else 0)
  }

  /** All reports pass exactly when the count is their number; none does exactly when it is 0. */
  lemma {:induction false} CountPassingBounds(reports: seq<Report>)
    ensures CountPassing(reports) == |reports| <==> forall i :: 0 <= i < |reports| ==> Passes(reports[i])
    ensures CountPassing(reports) == 0 <==> forall i :: 0 <= i < |reports| ==> !Passes(reports[i])
    decreases |reports|
  {
    if |reports| > 0 {
      var init := reports[..|reports| - 1];
      CountPassingBounds(init);
      assert forall i :: 0 <= i < |init| ==> init[i] == reports[i];
    }
  }

  /** What `testAllProviders` records for a provider: the critical error when `testProvider` threw, else its result. */
  function ReportOf(provider: string, run: Call<Env>, postsToTest: int, linksToTest: int): (r: Report)
    ensures r.Critical? <==> run.Threw?
    ensures r.Tested? ==> r.result.provider == provider && r.result.summary == Tally(StepsOf(r.result))
  {
    match run
    case Threw(m) => Critical(m)
    case Returned(env) => Tested(ProviderOutcome(provider, env, postsToTest, linksToTest))
  }

  /** The reports of the providers, in provider order. */
  function ReportsOf(providers: seq<string>, runs: string -> Call<Env>, postsToTest: int, linksToTest: int)
    : (reports: seq<Report>)
    ensures |reports| == |providers|
    ensures forall i :: 0 <= i < |providers| ==>
      reports[i] == ReportOf(providers[i], runs(providers[i]), postsToTest, linksToTest)
    decreases |providers|
  {
    if |providers| == 0 then []
    else
      var n := |providers| - 1;
      ReportsOf(providers[..n], runs, postsToTest, linksToTest) +
        [ReportOf(providers[n], runs(providers[n]), postsToTest, linksToTest)]
  }

  /**
   * `reports[i]` is what `testAllProviders` recorded for `providers[i]`: a
   * critical error exactly when `testProvider` itself threw, else that
   * provider's own result.
   */
  predicate ReportsFor(providers: seq<string>, reports: seq<Report>, runs: string -> Call<Env>) {
    |reports| == |providers| &&
    forall i :: 0 <= i < |providers| ==>
      (reports[i].Critical? <==> runs(providers[i]).Threw?) &&
      (reports[i].Tested? ==> reports[i].result.provider == providers[i])
  }

  /** `results[provider] = report` for each provider in turn: a later report of a provider replaces an earlier one. */
  function TableOf(providers: seq<string>, reports: seq<Report>): map<string, Report>
    requires |reports| == |providers|
    decreases |providers|
  {
    if |providers| == 0 then map[]
    else
      var n := |providers| - 1;
      TableOf(providers[..n], reports[..n])[providers[n] := reports[n]]
  }

  /** The table has a key for exactly the listed providers. */
  lemma {:induction false} TableOfKeys(providers: seq<string>, reports: seq<Report>)
    requires |reports| == |providers|
    ensures forall p :: p in TableOf(providers, reports) <==> p in providers
    decreases |providers|
  {
    if |providers| > 0 {
      var n := |providers| - 1;
      TableOfKeys(providers[..n], reports[..n]);
      assert providers == providers[..n] + [providers[n]];
    }
  }

  /** A provider's entry is the report of its last occurrence in the list. */
  lemma {:induction false} TableOfLast(providers: seq<string>, reports: seq<Report>, i: nat)
    requires |reports| == |providers| && i < |providers|
    requires forall j :: i < j < |providers| ==> providers[j] != providers[i]
    ensures providers[i] in TableOf(providers, reports) && TableOf(providers, reports)[providers[i]] == reports[i]
    decreases |providers|
  {
    var n := |providers| - 1;
    if i < n {
      TableOfLast(providers[..n], reports[..n], i);
    }
  }

  /** The providers' reports in order satisfy `ReportsFor`. */
  lemma ReportsOfFor(providers: seq<string>, runs: string -> Call<Env>, postsToTest: int, linksToTest: int)
    ensures ReportsFor(providers, ReportsOf(providers, runs, postsToTest, linksToTest), runs)
  {
  }

  /** Every entry of the table is the report of its own provider. */
  lemma {:induction false} TableOfReports(providers: seq<string>, reports: seq<Report>, runs: string -> Call<Env>,
                                          postsToTest: int, linksToTest: int)
    requires |reports| == |providers|
    requires forall i :: 0 <= i < |providers| ==>
      reports[i] == ReportOf(providers[i], runs(providers[i]), postsToTest, linksToTest)
    ensures ReportsMatch(TableOf(providers, reports), runs, postsToTest, linksToTest)
    decreases |providers|
  {
    if |providers| > 0 {
      var n := |providers| - 1;
      TableOfReports(providers[..n], reports[..n], runs, postsToTest, linksToTest);
    }
  }

  /** The result table has exactly one key per tested provider. */
  ghost predicate KeysAre(table: map<string, Report>, providers: seq<string>)
  {
    forall p :: p in table <==> p in providers
  }

  /**
   * A provider's entry is its own report: a critical error exactly when
   * `testProvider` itself threw, and otherwise what it returned for that provider.
   */
  predicate ReportsMatch(table: map<string, Report>, runs: string -> Call<Env>, postsToTest: int, linksToTest: int)
  {
    forall p :: p in table ==> table[p] == ReportOf(p, runs(p), postsToTest, linksToTest)
  }

  class ProviderTester {
    var timeout: int
    var postsToTest: int
    var linksToTest: int
    var results: map<string, Report>

    /** Missing or falsy options take the defaults 30000, 2 and 2. */
    constructor(options: Options)
      ensures timeout == OrDefault(options.timeout, 30000)
      ensures postsToTest == OrDefault(options.postsToTest, 2)
      ensures linksToTest == OrDefault(options.linksToTest, 2)
      ensures results == map[]
    {
      timeout := OrDefault(options.timeout, 30000);
      postsToTest := OrDefault(options.postsToTest, 2);
      linksToTest := OrDefault(options.linksToTest, 2);
      results := map[];
    }

    /**
     * Step 4: the episodes test when some link has an `episodesLink`, then
     * the direct links when some link has them and no stream succeeded yet.
     */
    method TestLinks(episodeLinks: seq<LinkInfo>, directLinks: seq<LinkInfo>, env: Env)
      returns (episodes: Step, stream: Step)
      ensures Linked(episodes, stream) == LinksOutcome(episodeLinks, directLinks, env, linksToTest)
      ensures LinksTested(episodeLinks, directLinks, env, linksToTest, episodes, stream)
    {
      episodes, stream := NotRun, NotRun;
      if |episodeLinks| > 0 {
        if env.getEpisodes.Some? {
          var testEpisodeLink := episodeLinks[0];
          match env.getEpisodes.value(testEpisodeLink.episodesLink)
          case Threw(m) =>
            episodes := episodes.(error := m);
          case Returned(eps) =>
            if |eps| > 0 {
              episodes := episodes.(success := true);
              var randomEpisode := eps[0];
              if env.getStream.Some? {
                match env.getStream.value(randomEpisode.link, "series")
                case Threw(m) =>
                  stream := stream.(error := m);
                case Returned(n) =>
                  if n > 0 {
                    stream := stream.(success := true);
                  } else {
                    stream := stream.(error := "No streams returned");
                  }
              }
            } else {
              episodes := episodes.(error := "No episodes returned");
            }
        } else {
          episodes := episodes.(skipped := true, error := "Function not available");
        }
      } else {
        episodes := episodes.(skipped := true);
      }
      assert Linked(episodes, stream) == EpisodesStep(episodeLinks, env);

      ghost var first := stream;
      if |directLinks| > 0 && !stream.success {
        var targets := DirectTargets(directLinks, linksToTest);
        if env.getStream.Some? {
          var getStream := env.getStream.value;
          var i := 0;
          while i < |targets|
            invariant 0 <= i <= |targets|
            invariant !stream.success
            invariant DirectLoop(targets[i..], getStream, stream) == DirectLoop(targets, getStream, first)
          {
            var directLink := targets[i];
            assert targets[i..][1..] == targets[i + 1..];
            match getStream(directLink.link, Or(directLink.kind, "movie")) {
              case Returned(n) =>
                if n > 0 {
                  stream := stream.(success := true);
                  break;
                }
              case Threw(m) =>
                stream := stream.(error := m);
            }
            i := i + 1;
          }
        } else {
          stream := stream.(error := "Function not available");
        }
      } else if !stream.success && |directLinks| == 0 && |episodeLinks| == 0 {
        stream := stream.(skipped := true);
      }
      LinksOutcomeTested(episodeLinks, directLinks, env, linksToTest);
    }

    /**
     * `testProvider`: catalog, posts and meta in turn (a failure throws to the
     * catch block, which records it on the step that was running), then the
     * episodes and stream step, then the summary.
     */
    method TestProvider(providerName: string, env: Env) returns (result: TestResult)
      ensures result.provider == providerName
      ensures result.summary == Tally(StepsOf(result))
      ensures result.posts.success ==> result.catalog.success
      ensures result.meta.success ==> result.posts.success
      ensures result.episodes.success || result.stream.success ==> result.meta.success
      ensures result.catalog.error != "" ==> !result.catalog.success
      ensures result.posts.error != "" ==> result.catalog.success && !result.posts.success
      ensures result.meta.error != "" ==> result.posts.success && !result.meta.success
      ensures result.catalog.success <==> env.catalog.Some? && env.catalog.value > 0
      ensures result.posts.success <==> PostsOk(env)
      ensures result.meta.success <==> FirstSteps(env, postsToTest).Routed?
      ensures var p := FirstSteps(env, postsToTest);
        p.Stopped? ==>
          StepAt(result, p.succeeded).error == p.message && result.episodes == NotRun && result.stream == NotRun
      ensures var p := FirstSteps(env, postsToTest);
        p.Stopped? && p.message != "" ==> result.summary.failed > 0
      ensures var p := FirstSteps(env, postsToTest);
        p.Routed? ==> LinksTested(p.episodeLinks, p.directLinks, env, linksToTest, result.episodes, result.stream)
      ensures env.catalog.None? ==> result.catalog.error == "Catalog module not found" && result.summary.failed > 0
      ensures var p := FirstSteps(env, postsToTest);
        p.Routed? ==> Linked(result.episodes, result.stream) == LinksOutcome(p.episodeLinks, p.directLinks, env, linksToTest)
      ensures FirstSteps(env, postsToTest).Routed? ==>
        (result.summary.failed == 0 <==> !Fails(result.episodes) && !Fails(result.stream))
      ensures result == ProviderOutcome(providerName, env, postsToTest, linksToTest)
    {
      var reach;
      result, reach := RunFirstSteps(providerName, env);
      match reach {
        case Stopped(_, message) =>
          result := Attribute(result, message);
        case Routed(episodeLinks, directLinks) =>
          var episodes, stream := TestLinks(episodeLinks, directLinks, env);
          result := result.(episodes := episodes, stream := stream);
      }
      var summary := TallySteps(StepsOf(result));
      result := result.(summary := summary);
      if reach.Stopped? && reach.message != "" {
        StoppedFails(result, reach.succeeded);
      }
      StatusPassed(result);
    }

    /**
     * Steps 1 to 3 of the `try` block (catalog, posts, meta): how far they
     * get, and the result with the successes they recorded. A `throw` here is
     * `Stopped` with its message.
     */
    method RunFirstSteps(providerName: string, env: Env) returns (result: TestResult, reach: Reach)
      ensures reach == FirstSteps(env, postsToTest)
      ensures result == Succeeded(providerName, if reach.Stopped? then reach.succeeded else 3)
    {
      result := Succeeded(providerName, 0);
      if env.catalog.None? {
        reach := Stopped(0, "Catalog module not found");
      } else if env.catalog.value == 0 {
        reach := Stopped(0, "No filters found in catalog");
      } else {
        result := result.(catalog := result.catalog.(success := true));
        if env.getPosts.None? {
          reach := Stopped(1, "getPosts function not found");
        } else {
          match env.getPosts.value
          case Threw(m) =>
            reach := Stopped(1, m);
          case Returned(posts) =>
            if |posts| == 0 {
              reach := Stopped(1, "getPosts returned empty or invalid result");
            } else {
              result := result.(posts := result.posts.(success := true));
              var postsToTest := MetaTargets(posts, Min(this.postsToTest, |posts|));
              if env.getMeta.None? {
                reach := Stopped(2, "getMeta function not found");
              } else {
                var metaResults := CollectMeta(postsToTest, env.getMeta.value);
                if |metaResults| == 0 {
                  reach := Stopped(2, "No valid meta data retrieved");
                } else {
                  result := result.(meta := result.meta.(success := true));
                  var episodeLinks, directLinks := RouteLinks(metaResults);
                  reach := Routed(episodeLinks, directLinks);
                }
              }
            }
        }
      }
    }

    /**
     * One provider's entry in the results: its test result, or the critical
     * error when `testProvider` itself threw. (Module loading never throws:
     * `loadModule` turns every error into null; only the catch block of
     * `testProvider` can throw, when what a provider threw is null or
     * undefined, so that reading its `message` throws.)
     */
    method ReportFor(provider: string, run: Call<Env>) returns (report: Report, ok: bool)
      ensures report.Critical? <==> run.Threw?
      ensures report.Tested? ==> report.result.provider == provider
      ensures report == ReportOf(provider, run, postsToTest, linksToTest)
      ensures ok <==> Passes(report)
    {
      match run {
        case Returned(env) =>
          var r := TestProvider(provider, env);
          report, ok := Tested(r), r.summary.failed == 0;
        case Threw(m) =>
          report, ok := Critical(m), false;
      }
    }

    /**
     * `testAllProviders`: None when the provider context is not loaded or no
     * provider is available; otherwise every provider is tested, and counted
     * as passed when its summary has no failed step, else as failed (a
     * critical error counting as failed). `runs(p)` is how `testProvider`
     * went on `p`: on its modules, or with a throw of its own.
     */
    method TestAllProviders(contextLoaded: bool, distExists: bool, entries: seq<DistEntry>,
                            manifest: seq<ManifestEntry>, runs: string -> Call<Env>)
      returns (results: Option<map<string, Report>>, passed: nat, failed: nat)
      ensures var providers := GetAvailableProviders(distExists, entries, manifest);
        results.Some? <==> contextLoaded && |providers| > 0
      ensures results.Some? ==> passed + failed == |GetAvailableProviders(distExists, entries, manifest)|
      ensures results.Some? ==> forall p :: p in results.value <==>
        p in GetAvailableProviders(distExists, entries, manifest)
      ensures results.Some? ==> forall p :: p in results.value ==>
        (results.value[p].Critical? <==> runs(p).Threw?) &&
        (results.value[p].Tested? ==> results.value[p].result.provider == p)
      ensures results.Some? ==>
        var providers := GetAvailableProviders(distExists, entries, manifest);
        var reports := ReportsOf(providers, runs, postsToTest, linksToTest);
        ReportsFor(providers, reports, runs) && passed == CountPassing(reports) &&
        results.value == TableOf(providers, reports)
      ensures results.Some? ==> ReportsMatch(results.value, runs, postsToTest, linksToTest)
    {
      passed, failed := 0, 0;
      if !contextLoaded {
        return None, passed, failed;
      }
      var providers := GetAvailableProviders(distExists, entries, manifest);
      if |providers| == 0 {
        return None, passed, failed;
      }
      var table;
      table, passed, failed := RunProviders(providers, runs);
      results := Some(table);
    }

    /** The loop of `testAllProviders`: every provider in turn, counted as passed or failed. */
    method RunProviders(providers: seq<string>, runs: string -> Call<Env>)
      returns (table: map<string, Report>, passed: nat, failed: nat)
      ensures passed + failed == |providers|
      ensures KeysAre(table, providers)
      ensures ReportsMatch(table, runs, postsToTest, linksToTest)
      ensures var reports := ReportsOf(providers, runs, postsToTest, linksToTest);
        ReportsFor(providers, reports, runs) && passed == CountPassing(reports) && table == TableOf(providers, reports)
    {
      passed, failed := 0, 0;
      table := map[];
      var i := 0;
      while i < |providers|
        invariant 0 <= i <= |providers|
        invariant Recorded(providers[..i], runs, postsToTest, linksToTest, table, passed, failed)
      {
        var provider := providers[i];
        var report, ok := ReportFor(provider, runs(provider));
        RecordStep(providers, i, runs, postsToTest, linksToTest, table, passed, failed, report, ok);
        table := table[provider := report];
        if ok {
          passed := passed + 1;
        } else {
          failed := failed + 1;
        }
        i := i + 1;
      }
      assert providers[..i] == providers;
      RecordedAll(providers, runs, postsToTest, linksToTest, table, passed, failed);
    }
  }

  /** What the loop of `testAllProviders` has recorded after the providers `ps`. */
  predicate Recorded(ps: seq<string>, runs: string -> Call<Env>, postsToTest: int, linksToTest: int,
                     table: map<string, Report>, passed: nat, failed: nat)
  {
    var reports := ReportsOf(ps, runs, postsToTest, linksToTest);
    passed + failed == |ps| && passed == CountPassing(reports) && table == TableOf(ps, reports)
  }

  /** The record of all providers gives the table's keys and entries. */
  lemma RecordedAll(providers: seq<string>, runs: string -> Call<Env>, postsToTest: int, linksToTest: int,
                    table: map<string, Report>, passed: nat, failed: nat)
    requires Recorded(providers, runs, postsToTest, linksToTest, table, passed, failed)
    ensures passed + failed == |providers|
    ensures KeysAre(table, providers) && ReportsMatch(table, runs, postsToTest, linksToTest)
    ensures var reports := ReportsOf(providers, runs, postsToTest, linksToTest);
      ReportsFor(providers, reports, runs) && passed == CountPassing(reports) && table == TableOf(providers, reports)
  {
    var reports := ReportsOf(providers, runs, postsToTest, linksToTest);
    TableOfKeys(providers, reports);
    TableOfReports(providers, reports, runs, postsToTest, linksToTest);
    ReportsOfFor(providers, runs, postsToTest, linksToTest);
  }

  /** Recording the next provider's report keeps the loop's record. */
  lemma RecordStep(providers: seq<string>, i: nat, runs: string -> Call<Env>, postsToTest: int, linksToTest: int,
                   table: map<string, Report>, passed: nat, failed: nat, report: Report, ok: bool)
    requires i < |providers| && Recorded(providers[..i], runs, postsToTest, linksToTest, table, passed, failed)
    requires report == ReportOf(providers[i], runs(providers[i]), postsToTest, linksToTest)
    requires ok <==> Passes(report)
    ensures Recorded(providers[..i + 1], runs, postsToTest, linksToTest, table[providers[i] := report],
                     if ok then passed + 1 else passed, if ok then failed else failed + 1)
  {
    var ps := providers[..i + 1];
    assert ps[..i] == providers[..i];
    var prev := ReportsOf(providers[..i], runs, postsToTest, linksToTest);
    var rs := ReportsOf(ps, runs, postsToTest, linksToTest);
    assert rs == prev + [report];
    assert rs[..i] == prev;
    assert CountPassing(rs) == CountPassing(prev) + if Passes(report) then 1 else 0;
    assert TableOf(ps, rs) == TableOf(providers[..i], prev)[providers[i] := report];
  }

  // ---------------------------------------------------------------------------
  // The command line

  /** `args.find((a) => a.startsWith(prefix))`. */
  function FindArg(args: seq<string>, prefix: string): (r: Option<string>)
    ensures r.Some? ==> r.value in args && StartsWith(r.value, prefix)
    ensures r.None? ==> forall a :: a in args ==> !StartsWith(a, prefix)
    decreases |args|
  {
    if |args| == 0 then None
    else if StartsWith(args[0], prefix) then Some(args[0])
    else FindArg(args[1..], prefix)
  }

  /** `parseInt(args.find(...)?.split("=")[1]) || 2`: NaN and 0 fall back to 2. */
  function CountOption(args: seq<string>, prefix: string): (n: int)
    ensures n != 0
  {
    var arg := FindArg(args, prefix);
    var text := if arg.Some? then SplitPiece(arg.value, "=", 1) else None;
    var parsed := if text.Some? then ParseInt(text.value) else None;
    if parsed.Some? && parsed.value != 0 then parsed.value else 2
  }

  /** What `main` does with its arguments. */
  datatype Command =
    | Help
    | TestOne(provider: string, postsToTest: int, linksToTest: int)
    | TestAll(postsToTest: int, linksToTest: int)

  function ParseCommand(args: seq<string>): (c: Command)
    ensures c.TestOne? ==> |args| > 0 && c.provider == args[0] && args[0] != "" && !StartsWith(args[0], "--")
    ensures c.TestAll? ==> |args| == 0 || args[0] == "" || StartsWith(args[0], "--")
    ensures c.Help? <==> "--help" in args || "-h" in args
    ensures !c.Help? ==>
      c.postsToTest == CountOption(args, "--posts=") && c.linksToTest == CountOption(args, "--links=")
  {
    var posts := CountOption(args, "--posts=");
    var links := CountOption(args, "--links=");
    if "--help" in args || "-h" in args then Help
    else if |args| > 0 && args[0] != "" && !StartsWith(args[0], "--") then TestOne(args[0], posts, links)
    else TestAll(posts, links)
  }

  /** The tester `main` builds keeps the parsed counts: `options.x || 2` on a count that is never 0. */
  lemma CountOptionKept(args: seq<string>, prefix: string)
    ensures OrDefault(Some(CountOption(args, prefix)), 2) == CountOption(args, prefix)
  {
  }

  /** Without a `--posts=` argument the count is 2. */
  lemma CountOptionAbsent(args: seq<string>, prefix: string)
    requires forall a :: a in args ==> !StartsWith(a, prefix)
    ensures CountOption(args, prefix) == 2
  {
  }

  /** `--posts=N` with a non-zero decimal `N` gives `N`, and `--posts=0` gives 2. */
  lemma CountOptionDigits(args: seq<string>, name: string, ds: string)
    requires '=' !in name && |ds| > 0 && AllIn(ds, Decimal)
    requires FindArg(args, name + "=") == Some(name + "=" + ds)
    ensures CountOption(args, name + "=") == if DigitsValue(ds, 10) == 0 then 2 else DigitsValue(ds, 10)
  {
    assert SplitPiece(name + "=" + ds, "=", 1) == Some(ds) by {
      forall m | 0 <= m < |ds| ensures ds[m] != '=' {
        assert InClass(ds[m], Decimal);
      }
      assert name + "=" + ds == name + ['='] + ds;
      SplitConcat(name, '=', ds);
      SplitNoSep(name, '=');
      SplitNoSep(ds, '=');
    }
    ParseIntDecimal(ds);
  }
}
