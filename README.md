# Vega providers: build script, hubcloud extractor, drive episodes and provider tester

This project models four parts of the Vega providers repository in Dafny and proves
properties of each:

- **The bundling script** (`build-bundled.js`). It finds the provider directories.
  For each provider it builds the five module kinds in order and post-processes
  esbuild's output. The post-processing does three things:
  - it turns `require('node:…')` into `{}`;
  - it replaces the first `__export(v, {k: () => t, …})` block's CommonJS export with
    direct `exports.k = k;` lines, placed before esbuild's annotation comment;
  - it removes the `0 && (module.exports = {…});` line.

  It then optionally minifies each module and records one result per module, with
  totals over all providers (module `BuildBundled`).
- **The hubcloud extractor** (`providers/extractors/hubcloud.ts`). It decodes the
  redirect and derives the base URL, then resolves the vcloud link. Each download
  button of the vcloud page goes through a first-match `switch (true)` that yields at
  most one `mkv` stream. The switch covers the Pixeldrain rewrite, the fixed server
  names, the two-hop `HEAD` redirect rule for hubcloud links and the host-name server
  for media links (module `Hubcloud`).
- **The drive episodes scraper** (`providers/drive/episodes.ts`). It filters the
  old-layout anchors. When they give nothing, it scans the new layout: qualifying
  headings, at most ten following siblings each, service links only, and titles
  `<heading> - <server>`. The result is never empty (module `DriveEpisodes`).
- **The provider integration tester** (`test-providers.js`). It covers:
  - provider discovery against the build output and the manifest;
  - the catalog → posts → meta → episodes/stream flow, with its error attribution;
  - the step summary and status;
  - the pass/fail counts over all providers;
  - the command-line options (module `ProviderTests`).

Two modules are shared. `Values` holds an `Option` type. `JsText` models the
JavaScript string built-ins the code relies on: `indexOf`, `includes`, `startsWith`,
`split`, `join`, `trim`, `slice` end indices, `parseInt`, and the map-then-filter
idiom. It also has small matcher combinators from which each regular expression of
the source is written out by hand.

Loops that update state in the source are methods: the module loop of
`buildProvider`, the button loop of the extractor, the heading and sibling walks of
`getEpisodes`, the meta loop, the link routing, the episodes and direct-link step,
the summary tally, `testProvider` itself and the provider loop. Each method is proved
equal to a specification function, and the properties are proved about those
functions. The tester's `ProviderTester` is a class with the
constructor's fields.

The build minifies each module inside that module's own `try`, unless the
`SKIP_MINIFY` environment variable is exactly `"true"`. A minifier that throws
therefore drops the module: nothing is written for it and it has no result.

## Model

| member | source | states |
|---|---|---|
| BuildBundled.ProviderDirs | build-bundled.js:10-18 | a name is listed exactly when some entry with that name is a directory, does not start with "." and is not "extractors"; at most one name per entry |
| BuildBundled.ProviderDirsAppend | build-bundled.js:10-18 | discovery keeps listing order: the providers of two listings are those of the first, then those of the second |
| BuildBundled.LazyClose | build-bundled.js:61 | the lazy `.*?['"]\)` stops at the first quote followed by `)`, and the text after it is what remains |
| BuildBundled.LazyCloseAfter | build-bundled.js:61 | a body without quotes or line breaks, a quote and `)` is consumed up to that `)` |
| BuildBundled.MatchNodeRequire | build-bundled.js:61 | a match starts with `require(` and consumes at least one character |
| BuildBundled.NodeRequireMatch | build-bundled.js:61 | `require(<q>node:<body><q>)` matches and leaves the text after it |
| BuildBundled.NodeRequireReplaced | build-bundled.js:61 | every `require('node:…')` or `require("node:…")` is replaced by `{}` and the scan continues after it |
| BuildBundled.ReplaceAllSkips | build-bundled.js:61 | a global replace copies unchanged the text before the first position where the pattern matches |
| BuildBundled.ReplaceAllNoMatch | build-bundled.js:61 | text where the pattern never matches is left exactly as it is |
| BuildBundled.ReplaceAllAtMatch | build-bundled.js:61 | a match at the start is replaced and the replacement continues after the match |
| BuildBundled.ExportBlockAt | build-bundled.js:63 | a match starts with `__export(` and yields a non-empty group without `}` |
| BuildBundled.ExportBlockMatch | build-bundled.js:63 | `__export(v, {body});` yields `body` whatever follows |
| BuildBundled.EntryAt | build-bundled.js:73 | a match's key is a non-empty run of word characters |
| BuildBundled.EntryAtNeedsColon | build-bundled.js:73 | the entry pattern matches only when a colon follows the key |
| BuildBundled.ArrowTargetOf | build-bundled.js:73 | `() => t` with a word `t` satisfies the tail of the entry pattern |
| BuildBundled.EntryAtGetter | build-bundled.js:73 | the getter `k: () => t` yields the key `k` |
| BuildBundled.EntryKey | build-bundled.js:72-75 | a trimmed entry yields a non-empty key of word characters, or null |
| BuildBundled.GetterEntryKey | build-bundled.js:72-75 | a getter padded with white space (as `split(",")` leaves it) yields its key |
| BuildBundled.EntryWithoutColon | build-bundled.js:72-76 | an entry without a colon yields null and is dropped |
| BuildBundled.ParseExportKeys | build-bundled.js:70-76 | every kept key is a non-empty run of word characters |
| BuildBundled.DefinedKeysAreWords | build-bundled.js:70-76 | the keys kept after `filter(Boolean)` are the non-null map results, all words |
| BuildBundled.WordsHaveNoComma | build-bundled.js:70-71 | a word contains no comma, so `split(",")` never cuts one |
| BuildBundled.GetterHasNoComma | build-bundled.js:70-71 | a getter entry contains no comma |
| BuildBundled.PaddedGetterEntry | build-bundled.js:70-75 | the last getter line with its trailing line break still yields its key |
| BuildBundled.GetterEntries | build-bundled.js:70-71 | one getter entry per key, in key order |
| BuildBundled.ParseGetterBlock | build-bundled.js:63-76 | parsing a block of getters `k: () => t` returns exactly the keys, in order, whatever the targets |
| BuildBundled.ExportLines | build-bundled.js:85-86 | one line per key, `exports.<k> = <k>;`, in key order |
| BuildBundled.ExportLineOneLine | build-bundled.js:85-86 | an export line of a word key contains no line break |
| BuildBundled.DirectExportsLines | build-bundled.js:85-87 | splitting the joined block on "\n" gives back exactly the lines, one per key |
| BuildBundled.InsertBeforeAnnotation | build-bundled.js:90-93 | without the annotation comment the code is unchanged; otherwise the block and a line break go right before its first occurrence and nothing else changes |
| BuildBundled.MatchToCommonJs | build-bundled.js:80 | a match starts with `module.exports` and consumes at least one character |
| BuildBundled.MatchCommonJsCall | build-bundled.js:80 | a match of the tail `__toCommonJS(x);` consumes at least one character |
| BuildBundled.CommonJsCallMatch | build-bundled.js:80 | `__toCommonJS(x);` after any spacing, with a non-empty word `x`, matches and leaves the text after it |
| BuildBundled.ToCommonJsMatch | build-bundled.js:80 | `module.exports = __toCommonJS(x);`, with any spacing around `=`, matches and leaves the text after it |
| BuildBundled.ToCommonJsRemoved | build-bundled.js:79-82 | every such statement is deleted and the scan continues after it |
| BuildBundled.MatchObjectAssignment | build-bundled.js:98 | a match of the tail `= {…});?` consumes at least one character |
| BuildBundled.ObjectAssignmentMatch | build-bundled.js:98 | `= {body})` with any spacing before and after `=` matches, and takes the following `;` when there is one |
| BuildBundled.MatchZeroExports | build-bundled.js:98 | a match starts with `0` and consumes at least one character |
| BuildBundled.ZeroExportsMatch | build-bundled.js:98 | `0 && (module.exports = {…});` with any spacing matches |
| BuildBundled.ZeroExportsRemoved | build-bundled.js:97-100 | every such line is deleted, with its `;` when present |
| BuildBundled.ModuleCode | build-bundled.js:57-120 | a bundler that throws writes nothing; when `SKIP_MINIFY` is "true" the written code is the post-processed text; otherwise a minifier that throws writes nothing, non-empty minifier output replaces the text and empty output keeps it; so the written code is empty only when post-processing left nothing |
| BuildBundled.Utf16Length | build-bundled.js:128 | `code.length` counts UTF-16 code units: at least one and at most two per character |
| BuildBundled.Utf16LengthBmp | build-bundled.js:128 | text without characters beyond U+FFFF has one code unit per character |
| BuildBundled.Utf16LengthAppend | build-bundled.js:128 | the length of joined texts is the sum of their lengths |
| BuildBundled.Outcome | build-bundled.js:34-139 | a pushed result is named after its module |
| BuildBundled.Built | build-bundled.js:126-129 | over the modules listed at lines 31-41, each result is a listed module whose source exists and whose build did not throw, with size equal to its code length; every such module has its result; the result names are a subsequence of the listed names, so they keep the list's order |
| BuildBundled.NamesStep | build-bundled.js:34-129 | pushing at most the next module's result keeps the names a subsequence of the modules looked at |
| BuildBundled.SubsequenceDistinct | build-bundled.js:34-129 | leaving modules out of a list without repeats keeps it without repeats and adds no name |
| BuildBundled.ModuleNamesDistinct | build-bundled.js:31 | the five module kinds are distinct |
| BuildBundled.BuiltStep | build-bundled.js:34-139 | one more module appends its own result, if any, to the results so far |
| BuildBundled.BuildProvider | build-bundled.js:22-143 | the loop's results equal the specification of one provider's build |
| BuildBundled.ProviderBuild | build-bundled.js:142 | the result names the provider and lists at most five modules, in the order of line 31, each at most once |
| BuildBundled.ModulesSizeOne | build-bundled.js:163 | adding a module adds its size to the inner sum |
| BuildBundled.TotalsAppend | build-bundled.js:161-165 | both totals split over a concatenation of providers, so they are sums over providers |
| BuildBundled.BuildsModules | build-bundled.js:161 | with the five module names of line 31, the total module count is at most five per provider |
| BuildBundled.Builds | build-bundled.js:159 | one result per provider, in provider order |
| BuildBundled.BuildAll | build-bundled.js:145-165 | the results are the builds of the providers found by the directory scan of lines 10-18, in order; the totals are the module count and size sums, with at most five modules per provider |
| BuildBundled.BuildProviders | build-bundled.js:159 | the provider loop gives one build per provider, in provider order |
| Hubcloud.HubcloudDecode | providers/extractors/hubcloud.ts:1-6 | `undefined` decodes to ""; any other value is `atob` of it |
| Hubcloud.HostFirstPart | providers/extractors/hubcloud.ts:20 | a slash-free host followed by a path is the first "/"-separated part |
| Hubcloud.SplitLeadingSlash | providers/extractors/hubcloud.ts:20 | a leading "/" splits off an empty first part |
| Hubcloud.SplitDoubleSlash | providers/extractors/hubcloud.ts:20 | `a//b` splits into `a`, "" and the parts of `b` |
| Hubcloud.SchemeHostParts | providers/extractors/hubcloud.ts:20 | the first three parts of `scheme//host<path>` are the scheme, "" and the host |
| Hubcloud.BaseUrlOf | providers/extractors/hubcloud.ts:20 | the base URL of `scheme//host<path>` is `scheme//host` |
| Hubcloud.QuotedUrl | providers/extractors/hubcloud.ts:25 | the group is non-empty and has no apostrophe |
| Hubcloud.UrlAssignment | providers/extractors/hubcloud.ts:25 | the group of `url = '…';` is non-empty and has no apostrophe |
| Hubcloud.VarUrlAt | providers/extractors/hubcloud.ts:25 | a match starts with `var`, and its group is non-empty without apostrophes |
| Hubcloud.QuotedUrlMatch | providers/extractors/hubcloud.ts:25 | `'<u>';` yields `u` |
| Hubcloud.UrlAssignmentMatch | providers/extractors/hubcloud.ts:25 | `url = '<u>';` yields `u` |
| Hubcloud.VarUrlMatch | providers/extractors/hubcloud.ts:25 | `var url = '<u>';` yields `u`, whatever follows |
| Hubcloud.FindVarUrlAtStart | providers/extractors/hubcloud.ts:25 | a page that starts with the redirect script yields its URL |
| Hubcloud.VcloudLink | providers/extractors/hubcloud.ts:26-35 | the extractor aborts only when the redirect has an `r=` parameter that `atob` rejects |
| Hubcloud.VcloudLinkDecoded | providers/extractors/hubcloud.ts:26-27 | a non-empty decoded `r=` parameter that is not relative is the vcloud link |
| Hubcloud.VcloudLinkFallback | providers/extractors/hubcloud.ts:26-30 | without a redirect script the download button's href is followed, else the link itself |
| Hubcloud.VcloudLinkRelative | providers/extractors/hubcloud.ts:29-35 | a relative href is resolved against the link's scheme and host |
| Hubcloud.PixeldrainLinkOf | providers/extractors/hubcloud.ts:50-55 | `<base>/<kind>/<token>` becomes `<base>/api/file/<token>?download` |
| Hubcloud.ClassifyPixeldrain | providers/extractors/hubcloud.ts:50-56 | a Pixeldrain viewer link `<base>/<kind>/<token>` without "api" is pushed as `<base>/api/file/<token>?download` |
| Hubcloud.FirstHop | providers/extractors/hubcloud.ts:73-81 | a 3xx goes to a non-empty location, else stays on the link; otherwise a changed response URL is taken, and without one the hop goes to a non-empty location, else stays on the link; a non-empty link never resolves to "" |
| Hubcloud.FromLocation | providers/extractors/hubcloud.ts:93-103 | no location keeps the link; a non-empty `?link=` parameter of the location replaces it; any other result is the link itself |
| Hubcloud.SecondHop | providers/extractors/hubcloud.ts:85-104 | a 3xx, or a response URL that is empty or unchanged, goes to the `?link=` parameter of the location, else stays; a changed URL gives its `?link=` parameter, else the URL itself; never "" from a non-empty link |
| Hubcloud.HubcloudTarget | providers/extractors/hubcloud.ts:63-115 | a failing first request drops the button; after the first hop, a googleusercontent target resolves to its `?link=` parameter (lines 82-83); any other target goes through a second `HEAD` request, whose failure drops the button and whose response gives `SecondHop`'s link; an undefined link, or "" from a non-empty link, comes only from the googleusercontent rule |
| Hubcloud.LinkParamOf | providers/extractors/hubcloud.ts:83 | the `?link=` parameter of `g?link=p` is `p` when `g` has no "?" and `p` no "?link=" |
| Hubcloud.HubcloudTargetGoogle | providers/extractors/hubcloud.ts:71-84 | a 302 to a googleusercontent page `g?link=p` resolves the button to `p` without a second request |
| Hubcloud.HostGroupAfter | providers/extractors/hubcloud.ts:137 | a group is non-empty and has no "/" |
| Hubcloud.HostGroup | providers/extractors/hubcloud.ts:137 | a group is non-empty and has no "/" |
| Hubcloud.HostGroupNone | providers/extractors/hubcloud.ts:137 | the host pattern fails exactly on "" and on text starting with "/" |
| Hubcloud.HostGroupAfterBare | providers/extractors/hubcloud.ts:137 | without `www.` the group is the host, up to the first "/" |
| Hubcloud.HostGroupAfterWww | providers/extractors/hubcloud.ts:137 | after `www.` the group is the host without it, up to the first "/" |
| Hubcloud.HostGroupAfterOf | providers/extractors/hubcloud.ts:137 | after an optional `www.` the group is the host, up to the first "/" |
| Hubcloud.HostGroupScheme | providers/extractors/hubcloud.ts:137 | an `http://` or `https://` prefix is skipped |
| Hubcloud.HostGroupOf | providers/extractors/hubcloud.ts:137 | with scheme and optional `www.`, the group is the host |
| Hubcloud.ReplaceDots | providers/extractors/hubcloud.ts:138 | same length; every "." becomes " " and every other character is kept |
| Hubcloud.HostServer | providers/extractors/hubcloud.ts:135-138 | the server name has no "."; a link not starting with "/" gets a non-empty name without "/" |
| Hubcloud.Classify | providers/extractors/hubcloud.ts:44-142 | every stream is "mkv"; an empty href gives none; "pixeld" always gives Pixeldrain, keeping a link with "api" and rewriting one without it by the Pixeldrain rule; a link reaching the hubcloud case is dropped when its requests fail and otherwise pushed as server "hubcloud" with the resolved target; other non-hubcloud links keep the href |
| Hubcloud.ClassifyFixedServers | providers/extractors/hubcloud.ts:59-131 | Cf Worker, CfStorage, FastDl and HubCdn, each when every earlier case fails, keeping the link |
| Hubcloud.ClassifyDefault | providers/extractors/hubcloud.ts:133-141 | the default case emits exactly the ".mkv" and "?token=" links, named after their host |
| Hubcloud.ClassifyWithoutRequests | providers/extractors/hubcloud.ts:44-142 | only the hubcloud case depends on the `HEAD` answers |
| Hubcloud.HubcdnGuardRedundant | providers/extractors/hubcloud.ts:125 | the `/?id=` guard of the hubcdn case is already excluded by the earlier hubcloud case of line 63 |
| Hubcloud.Streams | providers/extractors/hubcloud.ts:45-143 | at most one stream per button |
| Hubcloud.StreamsAreMkv | providers/extractors/hubcloud.ts:45-143 | every stream has type "mkv" |
| Hubcloud.StreamsAppend | providers/extractors/hubcloud.ts:45-143 | buttons contribute independently and in order |
| Hubcloud.Extracted | providers/extractors/hubcloud.ts:15-150 | a failed page request gives []; every stream is "mkv" |
| Hubcloud.StreamsStep | providers/extractors/hubcloud.ts:45-143 | one more button appends at most its own stream |
| Hubcloud.ClassifyButtons | providers/extractors/hubcloud.ts:45-143 | the button loop pushes exactly the specified streams, in button order |
| Hubcloud.HubcloudExtractor | providers/extractors/hubcloud.ts:8-151 | the loop's result equals the specification of the extractor |
| DriveEpisodes.OldEntry | providers/drive/episodes.ts:19-28 | an anchor yields an entry exactly when it has an href and its title contains "Ep" or "Download"; the title is "Play" for "Download", else the text |
| DriveEpisodes.OldFormatExactly | providers/drive/episodes.ts:19-28 | an entry is in the old layout's list exactly when some anchor yields it |
| DriveEpisodes.ResolutionThreeDigits | providers/drive/episodes.ts:41 | `\d{3,4}p` matches exactly when three digits followed by "p" occur |
| DriveEpisodes.QualifiesWithoutEpisode | providers/drive/episodes.ts:39-44 | a heading qualifies exactly when its text is non-empty and has a resolution or "Ep" ("Episode" adds nothing) |
| DriveEpisodes.ServiceServerName | providers/drive/episodes.ts:56-65 | a service href is named HubCloud exactly when it contains "hubcloud", and GDFlix otherwise |
| DriveEpisodes.ServiceEntry | providers/drive/episodes.ts:55-71 | an href yields an entry exactly when it is non-empty and names a service; the title is `<heading> - <server>` |
| DriveEpisodes.SiblingsEntriesStep | providers/drive/episodes.ts:49-72 | one more sibling appends its own entries |
| DriveEpisodes.Examined | providers/drive/episodes.ts:49-51 | ten siblings are examined, or all of them when fewer remain |
| DriveEpisodes.NewFormatStep | providers/drive/episodes.ts:36-75 | one more heading appends its own entries |
| DriveEpisodes.SiblingsEntriesShape | providers/drive/episodes.ts:56-70 | every entry links a service and is titled `<heading> - <server>` |
| DriveEpisodes.NewFormatShape | providers/drive/episodes.ts:36-75 | every new-layout entry links hubcloud or gdflix and has a non-empty heading before ` - <server>` |
| DriveEpisodes.TitledEntry | providers/drive/episodes.ts:67-69 | a title built from a non-empty heading ends in ` - <server>` after a non-empty heading |
| DriveEpisodes.HeadingEntriesShape | providers/drive/episodes.ts:48-73 | every entry one heading contributes links a service and carries that heading before ` - <server>` |
| DriveEpisodes.HeadingEntriesFirstTen | providers/drive/episodes.ts:49 | siblings after the tenth never contribute |
| DriveEpisodes.Episodes | providers/drive/episodes.ts:10-90 | the result is never empty: "Server 1" on error; the old layout when it yields entries, else the new layout, else `Play` |
| DriveEpisodes.PushSiblingLinks | providers/drive/episodes.ts:53-72 | the loop collects exactly the entries of one sibling's hrefs, in order |
| DriveEpisodes.PushHeadingLinks | providers/drive/episodes.ts:48-73 | the loop collects exactly the entries of the siblings it examines (at most ten, stopping at the last), in order |
| DriveEpisodes.ScanHeadings | providers/drive/episodes.ts:33-75 | the scan's result equals the new-layout specification |
| DriveEpisodes.GetEpisodes | providers/drive/episodes.ts:3-91 | the method's result equals the specification of `getEpisodes` |
| ProviderTests.OrDefault | test-providers.js:58-60 | a missing or zero option takes the default, any other value is kept |
| ProviderTests.ProviderTester.constructor | test-providers.js:57-63 | timeout, posts and links default to 30000, 2 and 2; results start empty |
| ProviderTests.GetAvailableProviders | test-providers.js:100-139 | no providers without `dist/`; at most one per entry |
| ProviderTests.DisabledExactly | test-providers.js:107-110 | a name is disabled exactly when some manifest entry with that value has `disabled === true` |
| ProviderTests.AvailableExactly | test-providers.js:118-136 | a provider is listed exactly when it is a directory with catalog, posts, meta and stream modules and is not disabled; episodes is optional |
| ProviderTests.PickRandom | test-providers.js:41-44 | a count of 1 gives a single element (or undefined); any other count gives a slice of that many |
| ProviderTests.SinglePostNotIterable | test-providers.js:211-227 | as written, when one post is to be tested the meta step iterates a post object and throws |
| ProviderTests.QuickTestMetaThrows | test-providers.js:211-227 | as written, `--posts=1` (line 633) with two posts reaches no `getMeta` call |
| ProviderTests.MetaTargets | test-providers.js:211-214 | corrected, for the call at lines 391-393: the posts tested are the first `min(count, n)` posts, at least one |
| ProviderTests.CollectMeta | test-providers.js:226-267 | the meta results are those of the posts whose `getMeta` neither threw nor lacked a `linkList`, in post order |
| ProviderTests.FlattenIn | test-providers.js:280-281 | every link of every meta result is visited |
| ProviderTests.RouteStep | test-providers.js:282-287 | one more link is appended to each list whose test it passes |
| ProviderTests.RoutingMembership | test-providers.js:280-289 | a link is in the episode list exactly when it has an `episodesLink`, and in the direct list exactly when it has direct links; it can be in both |
| ProviderTests.RouteList | test-providers.js:281-288 | appends exactly the routed links of one meta result |
| ProviderTests.RouteLinks | test-providers.js:277-289 | both lists are the filters of all meta links, in order |
| ProviderTests.TallyCounts | test-providers.js:455-464 | each step adds to at most one counter; no failure exactly when no step has an error without success or skip; no pass exactly when no step succeeded |
| ProviderTests.StatusPassed | test-providers.js:488-492 | with the tally of lines 455-464, the counters sum to at most 5; PASSED exactly when none of the five steps fails |
| ProviderTests.TallySteps | test-providers.js:455-464 | the loop's counters equal the tally |
| ProviderTests.Attribute | test-providers.js:441-452 | the error goes to the first of catalog, posts and meta not yet successful, and to no other step |
| ProviderTests.ProviderTester.TestLinks | test-providers.js:291-440 | the records equal `LinksOutcome` of the routed lists, and so meet `LinksTested`: episodes are skipped exactly when there are no episode links or no `getEpisodes`; stream is skipped exactly when both lists are empty; with the direct links tried after a failed episodes step, stream succeeds exactly when some tried direct link returns a stream |
| ProviderTests.DirectLoopSuccess | test-providers.js:376-431 | the direct-link loop succeeds exactly when some picked link returns a stream, never marks the step skipped, and keeps the earlier error when no link throws |
| ProviderTests.DirectLoopLastError | test-providers.js:424-427 | without a stream, the stream error is the message of the last direct link that threw |
| ProviderTests.LinksOutcomeEpisodes | test-providers.js:291-370 | episodes succeed exactly when `getEpisodes` returned at least one episode, are skipped exactly without episode links or `getEpisodes`; the errors are "Function not available", the thrown message and "No episodes returned" (lines 359-368) |
| ProviderTests.LinksOutcomeStream | test-providers.js:320-440 | stream succeeds exactly when the first episode's stream or a picked direct link returns a stream, whatever the episodes step did; skipped exactly without links; "Function not available" without `getStream` for direct links; without direct links the episode test's thrown message or "No streams returned" (lines 350-356); otherwise the direct loop continues from the episode test's record |
| ProviderTests.LinksOutcomeTested | test-providers.js:291-440 | step 4's records meet `LinksTested` |
| ProviderTests.ProviderTester.TestProvider | test-providers.js:144-496 | the result equals `ProviderOutcome`; the summary is the tally of the five steps; catalog succeeds exactly when it has filters, posts exactly when `getPosts` also returned a non-empty array, meta exactly when some meta result had a `linkList`; a throw in steps 1-3 records its message on the step that was running, leaves steps 4-5 untouched and, when the message is non-empty, fails the provider (a missing catalog module records "Catalog module not found"); otherwise steps 4-5 equal `LinksOutcome` of the routed links, and the provider passes exactly when neither of them fails |
| ProviderTests.ProviderOutcome | test-providers.js:144-496 | the result names the provider and its summary is the tally of its steps |
| ProviderTests.ProviderPasses | test-providers.js:441-464 | a provider passes exactly when steps 1-3 got through and neither episodes nor stream fails, or when the step that stopped them threw an empty message |
| ProviderTests.ProviderTester.RunFirstSteps | test-providers.js:159-285 | steps 1-3 reach exactly `FirstSteps`, and record success on exactly the steps passed |
| ProviderTests.FirstSteps | test-providers.js:159-285 | stops on catalog exactly without filters, by posts exactly unless `getPosts` returned a non-empty array, and gets through meta exactly when some meta result had a `linkList`; the routed lists are the episode and direct filters of those results |
| ProviderTests.StoppedFails | test-providers.js:454-464 | a step that neither succeeded nor was skipped but has an error makes the summary's failed count positive |
| ProviderTests.ProviderTester.ReportFor | test-providers.js:523-536 | the report is `ReportOf` the provider: a critical error exactly when `testProvider` itself threw, otherwise `ProviderOutcome` of its modules; counted as passed exactly when no step failed |
| ProviderTests.ReportOf | test-providers.js:523-536 | a critical error exactly when `testProvider` threw; otherwise a result naming the provider, with its summary the tally of its steps |
| ProviderTests.ReportsOf | test-providers.js:522-536 | one report per provider, each the `ReportOf` of that provider, in order |
| ProviderTests.ReportsOfFor | test-providers.js:522-536 | the reports in order are critical exactly where `testProvider` threw, and otherwise name their provider |
| ProviderTests.ProviderTester.RunProviders | test-providers.js:518-540 | with the reports `ReportsOf` the providers: passed is the number of passing reports and failed the rest; the table is the reports written in provider order, so its keys are the providers and each entry is its provider's own report |
| ProviderTests.RecordStep | test-providers.js:522-536 | recording one more provider's report keeps the counts and the table equal to those of the providers so far |
| ProviderTests.RecordedAll | test-providers.js:518-540 | after every provider, the table has exactly the providers as keys and each entry matches how its test went |
| ProviderTests.CountPassing | test-providers.js:525-529 | at most one pass per report |
| ProviderTests.CountPassingBounds | test-providers.js:525-529 | all providers pass exactly when passed is their number, and none exactly when it is 0 |
| ProviderTests.TableOfKeys | test-providers.js:524 | the results object has a key for exactly the tested providers |
| ProviderTests.TableOfLast | test-providers.js:524 | a provider's entry is the report of its last occurrence |
| ProviderTests.TableOfReports | test-providers.js:524 | every entry is its provider's own report: a critical error exactly when `testProvider` threw for it, otherwise `ProviderOutcome` of its modules |
| ProviderTests.ProviderTester.TestAllProviders | test-providers.js:501-540 | null without the provider context or without providers; otherwise, with the reports `ReportsOf` the available providers, passed is the number of passing reports, passed + failed the number of providers, and the table those reports in provider order, each entry its provider's own report |
| ProviderTests.FindArg | test-providers.js:599-602 | the first argument with the prefix, or none when no argument has it |
| ProviderTests.CountOption | test-providers.js:599-602 | the count is never 0 |
| ProviderTests.CountOptionAbsent | test-providers.js:599-602 | without the option the count is 2 |
| ProviderTests.CountOptionDigits | test-providers.js:599-602 | `--posts=N` gives N when N is non-zero, and 2 for 0 |
| ProviderTests.ParseCommand | test-providers.js:594-642 | help exactly when `--help` or `-h` is given; otherwise a non-empty first argument not starting with "--" names the provider, all providers are tested otherwise, and the post and link counts are those of `--posts=` and `--links=` |
| ProviderTests.CountOptionKept | test-providers.js:604 | the tester built from the parsed counts keeps them |

## Left out

- esbuild and terser are not modelled. Each is an input that gives an output text or throws. The minifier's options are not modelled.
- File system effects are not modelled: listing, existence checks, `mkdirSync`, `rmSync`, `writeFileSync` and the `require` cache. Directory listings, source existence and the manifest are inputs. A missing or unreadable manifest is the empty list.
- Console output, timing (`Date.now`, `sleep`) and the help text are not modelled.
- `Promise.all` over providers is modelled as a sequential build; the results come back in provider order either way.
- `atob` is an input function; base64 is not specified.
- The network and the page parser are inputs. Page text, button hrefs, headings with their siblings' hrefs and `HEAD` answers are given, with None where a request throws. The `HEAD` answers are a deterministic function of the URL.
- `pickRandom` shuffles with `Math.random`. The model takes the array in its given order, which is one of the orders the shuffle can produce.
- The tester's provider modules are inputs. `getPosts`, `getEpisodes` and `getStream` results that are not arrays count as empty arrays, which the source treats the same way. The random catalog filter passed to `getPosts` is not modelled.
- ProviderTests.ProviderTester.TestProvider: a post without a `title` makes `post.title.substring` throw outside the meta loop's inner `try`. That throw is not modelled, and the meta loop of the model follows the corrected pick (see Findings).
- ProviderTests.ProviderTester.TestAllProviders: `loadModule` turns every loading error into null, and `testProvider` catches the errors of its steps. A critical error can only come from its catch block, when what a provider threw is null or undefined, so that reading its `message` throws. The model takes whether `testProvider` threw, and its message, as an input per provider.
- JavaScript strings may hold lone surrogates; the model's strings hold Unicode scalar values, and `Utf16Length` counts a character beyond U+FFFF as its two code units.
- The `AbortController` signal, the request headers and the hubcloud cookie are not modelled.

## Findings

| source | as written | input that shows it | evidently intended | confidence | as-written member | corrected member |
|---|---|---|---|---|---|---|
| test-providers.js:211-227 | `pickRandom(posts, Math.min(this.postsToTest, posts.length))` returns a bare post when the count is 1, and `for (const post of postsToTest)` then throws "postsToTest is not iterable"; the error is caught by the outer `catch` and recorded as the meta step's failure | `--posts=1` (the help text's quick test), or the default of 2 when `getPosts` returns a single post | iterate the picked posts, wrapping a single pick in an array as the direct-links step does at lines 391-393 | not executed | ProviderTests.SinglePostNotIterable | ProviderTests.MetaTargets |
