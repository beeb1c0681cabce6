/**
 * The provider build script: discovery of provider directories, the text
 * rewrites applied to each bundled module (the `node:` requires, the
 * `__export` block turned into direct `exports.k = k;` assignments, the
 * CommonJS interop lines removed), the optional minification step, the
 * per-provider module results and the build totals.
 *
 * The bundler (esbuild) and the minifier (terser) are opaque: the model
 * receives what each produced, or that it threw.
 */
module BuildBundled {
  import opened Values
  import opened JsText

  // ---------------------------------------------------------------------------
  // Provider discovery

  /** One entry of `readdirSync(providersDir, { withFileTypes: true })`. */
  datatype Dirent = Dirent(name: string, isDirectory: bool)

  /** The discovery filter: a visible directory other than the shared `extractors` one. */
  predicate IsProviderDir(d: Dirent) {
    d.isDirectory && !StartsWith(d.name, ".") && d.name != "extractors"
  }

  /** `providerDirs`: the names of the entries that pass the filter, in listing order. */
  function ProviderDirs(entries: seq<Dirent>): (names: seq<string>)
    ensures |names| <= |entries|
    ensures forall n :: n in names <==> exists d :: d in entries && IsProviderDir(d) && d.name == n
    decreases |entries|
  {
    if |entries| == 0 then []
    else
      var init := entries[..|entries| - 1];
      var last := entries[|entries| - 1];
      assert entries == init + [last];
      ProviderDirs(init) + (if IsProviderDir(last) then [last.name] else [])
  }

  /** Discovery keeps listing order: the providers of two listings are those of each, in turn. */
  lemma {:induction false} ProviderDirsAppend(a: seq<Dirent>, b: seq<Dirent>)
    ensures ProviderDirs(a + b) == ProviderDirs(a) + ProviderDirs(b)
    decreases |b|
  {
    if |b| == 0 {
      assert a + b == a;
    } else {
      var init := b[..|b| - 1];
      assert (a + b)[..|a + b| - 1] == a + init;
      assert (a + b)[|a + b| - 1] == b[|b| - 1];
      ProviderDirsAppend(a, init);
    }
  }

  // ---------------------------------------------------------------------------
  // The regular expressions of the post-processing chain, as matchers on the
  // text from one position on: each gives what follows its match, or None.
  // None of them can backtrack into a different match (every run is followed
  // by a character its class excludes), so consuming each run whole is exact.

  predicate IsQuote(c: char) {
    c == '\'' || c == '"'
  }

  /** The characters `.` does not match. */
  predicate IsLineTerminator(c: char) {
    c == '\n' || c == '\r' || c == '\U{2028}' || c == '\U{2029}'
  }

  /** `.*?['"]\)` can stop with its closing quote at `k`. */
  predicate ClosesAt(t: string, k: nat) {
    k + 2 <= |t| && IsQuote(t[k]) && t[k + 1] == ')'
    && forall m :: 0 <= m < k ==> !IsLineTerminator(t[m])
  }

  /** The lazy `.*?['"]\)`: it stops at the nearest closing quote and parenthesis. */
  function LazyClose(t: string): (r: Option<string>)
    ensures r.Some? ==> |r.value| + 2 <= |t| && r.value == t[|t| - |r.value|..]
    ensures r.Some? ==> ClosesAt(t, |t| - |r.value| - 2)
    ensures forall k :: ClosesAt(t, k) ==> r.Some? && |t| - |r.value| - 2 <= k
    decreases |t|
  {
    if |t| >= 2 && IsQuote(t[0]) && t[1] == ')' then Some(t[2..])
    else if |t| > 0 && !IsLineTerminator(t[0]) then
      assert forall k: nat :: ClosesAt(t, k) ==> k >= 1 && ClosesAt(t[1..], k - 1);
      assert forall k: nat :: ClosesAt(t[1..], k) ==> ClosesAt(t, k + 1);
      LazyClose(t[1..])
    else None
  }

  /** `require\(['"]node:.*?['"]\)` */
  function MatchNodeRequire(s: string): (r: Option<string>)
    ensures r.Some? ==> |r.value| < |s|
    ensures r.Some? ==> StartsWith(s, "require(")
  {
    var a :- Expect(s, "require(");
    if !(|a| > 0 && IsQuote(a[0])) then None
    else
      var b :- Expect(a[1..], "node:");
      LazyClose(b)
  }

  /** `module\.exports\s*=\s*__toCommonJS\((\w+)\);` */
  function MatchToCommonJs(s: string): (r: Option<string>)
    ensures r.Some? ==> |r.value| < |s|
    ensures r.Some? ==> StartsWith(s, "module.exports")
  {
    var a :- Expect(s, "module.exports");
    var b :- Expect(SkipSpan(a, Space), "=");
    MatchCommonJsCall(b)
  }

  /** The tail `\s*__toCommonJS\((\w+)\);` of the pattern above. */
  function MatchCommonJsCall(b: string): (r: Option<string>)
    ensures r.Some? ==> |r.value| < |b|
  {
    var c :- Expect(SkipSpan(b, Space), "__toCommonJS(");
    var d := SkipSpan(c, Word);
    if |d| == |c| then None else Expect(d, ");")
  }

  /** `0\s*&&\s*\(module\.exports\s*=\s*\{[^}]*\}\);?` */
  function MatchZeroExports(s: string): (r: Option<string>)
    ensures r.Some? ==> |r.value| < |s|
    ensures r.Some? ==> StartsWith(s, "0")
  {
    var a :- Expect(s, "0");
    var b :- Expect(SkipSpan(a, Space), "&&");
    var c :- Expect(SkipSpan(b, Space), "(module.exports");
    MatchObjectAssignment(c)
  }

  /** The tail `\s*=\s*\{[^}]*\}\);?` of the pattern above. */
  function MatchObjectAssignment(c: string): (r: Option<string>)
    ensures r.Some? ==> |r.value| < |c|
  {
    var d :- Expect(SkipSpan(c, Space), "=");
    var e :- Expect(SkipSpan(d, Space), "{");
    var f :- Expect(SkipSpan(e, NotCloseBrace), "})");
    Some(if StartsWith(f, ";") then f[1..] else f)
  }

  /** A matcher that consumes at least one character whenever it matches. */
  ghost predicate Consumes(m: string -> Option<string>) {
    forall t :: m(t).Some? ==> |m(t).value| < |t|
  }

  /**
   * `s.replace(/re/g, rep)`, where `m` matches `re` at the start of a text:
   * leftmost matches, the scan going on after each replaced match.
   */
  function ReplaceAll(m: string -> Option<string>, s: string, rep: string): string
    requires Consumes(m)
    decreases |s|
  {
    if |s| == 0 then ""
    else
      match m(s)
      case Some(rest) => rep + ReplaceAll(m, rest, rep)
      case None => [s[0]] + ReplaceAll(m, s[1..], rep)
  }

  /** The text before the first position where a match could start is copied through unchanged. */
  lemma {:induction false} ReplaceAllSkips(m: string -> Option<string>, s: string, i: nat, rep: string)
    requires Consumes(m) && i <= |s|
    requires forall k :: 0 <= k < i ==> m(s[k..]).None?
    ensures ReplaceAll(m, s, rep) == s[..i] + ReplaceAll(m, s[i..], rep)
    decreases i
  {
    if i == 0 {
      assert s[0..] == s;
    } else {
      var j := i - 1;
      ReplaceAllSkips(m, s, j, rep);
      var t := s[j..];
      assert m(t).None?;
      assert t[1..] == s[i..];
      assert ReplaceAll(m, t, rep) == [s[j]] + ReplaceAll(m, s[i..], rep);
      assert s[..j] + [s[j]] == s[..i];
    }
  }

  /** Text in which the pattern never matches is left exactly as it is. */
  lemma ReplaceAllNoMatch(m: string -> Option<string>, s: string, rep: string)
    requires Consumes(m)
    requires forall k :: 0 <= k < |s| ==> m(s[k..]).None?
    ensures ReplaceAll(m, s, rep) == s
  {
    ReplaceAllSkips(m, s, |s|, rep);
    assert s[..|s|] == s;
  }

  /** A match at the start is replaced, and the scan goes on after it. */
  lemma ReplaceAllAtMatch(m: string -> Option<string>, s: string, rest: string, rep: string)
    requires Consumes(m) && m(s) == Some(rest)
    ensures ReplaceAll(m, s, rep) == rep + ReplaceAll(m, rest, rep)
  {
  }

  /** The lazy close stops at the first quote followed by `)`. */
  lemma LazyCloseAfter(body: string, q2: char, rest: string)
    requires IsQuote(q2)
    requires forall m :: 0 <= m < |body| ==> !IsQuote(body[m]) && !IsLineTerminator(body[m])
    ensures LazyClose(body + ([q2] + (")" + rest))) == Some(rest)
  {
    var t := body + ([q2] + (")" + rest));
    var e := |body|;
    forall m | 0 <= m < e ensures t[m] == body[m] {}
    assert t[e] == q2 && t[e + 1] == ')';
    assert ClosesAt(t, e);
    forall k: nat | k < e ensures !ClosesAt(t, k) {
      assert t[k] == body[k];
    }
    assert t[e + 2..] == rest;
  }

  lemma NodeRequireMatch(q1: char, body: string, q2: char, rest: string)
    requires IsQuote(q1) && IsQuote(q2)
    requires forall m :: 0 <= m < |body| ==> !IsQuote(body[m]) && !IsLineTerminator(body[m])
    ensures MatchNodeRequire("require(" + ([q1] + ("node:" + (body + ([q2] + (")" + rest)))))) == Some(rest)
  {
    var t := body + ([q2] + (")" + rest));
    ExpectConcat("require(", [q1] + ("node:" + t));
    assert ([q1] + ("node:" + t))[1..] == "node:" + t;
    ExpectConcat("node:", t);
    LazyCloseAfter(body, q2, rest);
  }

  /** Every `require('node:…')` (either quote, no quote or line break inside) becomes `{}`. */
  lemma NodeRequireReplaced(q1: char, body: string, q2: char, rest: string)
    requires IsQuote(q1) && IsQuote(q2)
    requires forall m :: 0 <= m < |body| ==> !IsQuote(body[m]) && !IsLineTerminator(body[m])
    ensures ReplaceAll(MatchNodeRequire, "require(" + [q1] + "node:" + body + [q2] + ")" + rest, "{}")
         == "{}" + ReplaceAll(MatchNodeRequire, rest, "{}")
  {
    var s := "require(" + ([q1] + ("node:" + (body + ([q2] + (")" + rest)))));
    assert s == "require(" + [q1] + "node:" + body + [q2] + ")" + rest;
    NodeRequireMatch(q1, body, q2, rest);
    ReplaceAllAtMatch(MatchNodeRequire, s, rest, "{}");
  }

  lemma ToCommonJsMatch(w1: string, w2: string, x: string, rest: string)
    requires AllIn(w1, Space) && AllIn(w2, Space) && AllIn(x, Word) && |x| > 0
    ensures MatchToCommonJs("module.exports" + (w1 + ("=" + (w2 + ("__toCommonJS(" + (x + (");" + rest))))))) == Some(rest)
  {
    var r2 := w2 + ("__toCommonJS(" + (x + (");" + rest)));
    var r1 := "=" + r2;
    var r0 := w1 + r1;
    assert Expect("module.exports" + r0, "module.exports") == Some(r0) by { ExpectConcat("module.exports", r0); }
    assert SkipSpan(r0, Space) == r1 by { assert r1[0] == '='; SkipSpanOver(w1, r1, Space); }
    assert Expect(r1, "=") == Some(r2) by { ExpectConcat("=", r2); }
    CommonJsCallMatch(w2, x, rest);
  }

  lemma CommonJsCallMatch(w2: string, x: string, rest: string)
    requires AllIn(w2, Space) && AllIn(x, Word) && |x| > 0
    ensures MatchCommonJsCall(w2 + ("__toCommonJS(" + (x + (");" + rest)))) == Some(rest)
  {
    var r5 := ");" + rest;
    var r4 := x + r5;
    var r3 := "__toCommonJS(" + r4;
    assert SkipSpan(w2 + r3, Space) == r3 by { assert r3[0] == '_'; SkipSpanOver(w2, r3, Space); }
    assert Expect(r3, "__toCommonJS(") == Some(r4) by { ExpectConcat("__toCommonJS(", r4); }
    assert SkipSpan(r4, Word) == r5 by { assert r5[0] == ')'; SkipSpanOver(x, r5, Word); }
    assert Expect(r5, ");") == Some(rest) by { ExpectConcat(");", rest); }
  }

  /** Every `module.exports = __toCommonJS(x);` (any spacing around `=`) is removed. */
  lemma ToCommonJsRemoved(w1: string, w2: string, x: string, rest: string)
    requires AllIn(w1, Space) && AllIn(w2, Space) && AllIn(x, Word) && |x| > 0
    ensures ReplaceAll(MatchToCommonJs, "module.exports" + w1 + "=" + w2 + "__toCommonJS(" + x + ");" + rest, "")
         == ReplaceAll(MatchToCommonJs, rest, "")
  {
    var s := "module.exports" + (w1 + ("=" + (w2 + ("__toCommonJS(" + (x + (");" + rest))))));
    assert s == "module.exports" + w1 + "=" + w2 + "__toCommonJS(" + x + ");" + rest;
    ToCommonJsMatch(w1, w2, x, rest);
    ReplaceAllAtMatch(MatchToCommonJs, s, rest, "");
    assert "" + ReplaceAll(MatchToCommonJs, rest, "") == ReplaceAll(MatchToCommonJs, rest, "");
  }

  lemma ObjectAssignmentMatch(w3: string, w4: string, body: string, rest: string)
    requires AllIn(w3, Space) && AllIn(w4, Space) && AllIn(body, NotCloseBrace)
    ensures MatchObjectAssignment(w3 + ("=" + (w4 + ("{" + (body + ("})" + rest))))))
         == Some(if StartsWith(rest, ";") then rest[1..] else rest)
  {
    var r9 := "})" + rest;
    var r8 := body + r9;
    var r7 := "{" + r8;
    var r6 := w4 + r7;
    var r5 := "=" + r6;
    assert r5[0] == '=';
    SkipSpanOver(w3, r5, Space);
    ExpectConcat("=", r6);
    assert r7[0] == '{';
    SkipSpanOver(w4, r7, Space);
    ExpectConcat("{", r8);
    assert r9[0] == '}';
    SkipSpanOver(body, r9, NotCloseBrace);
    ExpectConcat("})", rest);
  }

  lemma ZeroExportsMatch(w1: string, w2: string, w3: string, w4: string, body: string, rest: string)
    requires AllIn(w1, Space) && AllIn(w2, Space) && AllIn(w3, Space) && AllIn(w4, Space)
    requires AllIn(body, NotCloseBrace)
    ensures MatchZeroExports("0" + (w1 + ("&&" + (w2 + ("(module.exports" + (w3 + ("=" + (w4 + ("{" + (body + ("})" + rest)))))))))))
         == Some(if StartsWith(rest, ";") then rest[1..] else rest)
  {
    var r4 := w3 + ("=" + (w4 + ("{" + (body + ("})" + rest)))));
    var r3 := "(module.exports" + r4;
    var r2 := w2 + r3;
    var r1 := "&&" + r2;
    var r0 := w1 + r1;
    ExpectConcat("0", r0);
    assert r1[0] == '&';
    SkipSpanOver(w1, r1, Space);
    ExpectConcat("&&", r2);
    assert r3[0] == '(';
    SkipSpanOver(w2, r3, Space);
    ExpectConcat("(module.exports", r4);
    ObjectAssignmentMatch(w3, w4, body, rest);
  }

  /** Every `0 && (module.exports = {…});` is removed, its `;` too when there is one. */
  lemma ZeroExportsRemoved(w1: string, w2: string, w3: string, w4: string, body: string, rest: string)
    requires AllIn(w1, Space) && AllIn(w2, Space) && AllIn(w3, Space) && AllIn(w4, Space)
    requires AllIn(body, NotCloseBrace)
    ensures ReplaceAll(MatchZeroExports, "0" + (w1 + ("&&" + (w2 + ("(module.exports" + (w3 + ("=" + (w4 + ("{" + (body + ("})" + rest)))))))))), "")
         == ReplaceAll(MatchZeroExports, if StartsWith(rest, ";") then rest[1..] else rest, "")
  {
    var after := if StartsWith(rest, ";") then rest[1..] else rest;
    var s := "0" + (w1 + ("&&" + (w2 + ("(module.exports" + (w3 + ("=" + (w4 + ("{" + (body + ("})" + rest))))))))));
    ZeroExportsMatch(w1, w2, w3, w4, body, rest);
    ReplaceAllAtMatch(MatchZeroExports, s, after, "");
    assert "" + ReplaceAll(MatchZeroExports, after, "") == ReplaceAll(MatchZeroExports, after, "");
  }

  // ---------------------------------------------------------------------------
  // The `__export(var, { k: () => t, … });` block

  /** `__export\((\w+),\s*\{([^}]+)\}\);` at the start of `s`: the content of the braces. */
  function ExportBlockAt(s: string): (r: Option<string>)
    ensures r.Some? ==> StartsWith(s, "__export(") && |r.value| > 0 && AllIn(r.value, NotCloseBrace)
  {
    var a :- Expect(s, "__export(");
    var b := SkipSpan(a, Word);
    if |b| == |a| then None
    else
      var c :- Expect(b, ",");
      var d :- Expect(SkipSpan(c, Space), "{");
      var e := SkipSpan(d, NotCloseBrace);
      if |e| == |d| || !StartsWith(e, "});") then None
      else Some(d[..|d| - |e|])
  }

  /** An `__export(v, {body});` block yields its body, whatever follows it. */
  lemma ExportBlockMatch(v: string, w: string, body: string, rest: string)
    requires |v| > 0 && AllIn(v, Word) && AllIn(w, Space)
    requires |body| > 0 && AllIn(body, NotCloseBrace)
    ensures ExportBlockAt("__export(" + (v + ("," + (w + ("{" + (body + ("});" + rest))))))) == Some(body)
  {
    var r5 := "});" + rest;
    var r4 := body + r5;
    var r3 := "{" + r4;
    var r2 := w + r3;
    var r1 := "," + r2;
    var r0 := v + r1;
    assert Expect("__export(" + r0, "__export(") == Some(r0) by { ExpectConcat("__export(", r0); }
    assert SkipSpan(r0, Word) == r1 by { assert r1[0] == ','; SkipSpanOver(v, r1, Word); }
    assert Expect(r1, ",") == Some(r2) by { ExpectConcat(",", r2); }
    assert SkipSpan(r2, Space) == r3 by { assert r3[0] == '{'; SkipSpanOver(w, r3, Space); }
    assert Expect(r3, "{") == Some(r4) by { ExpectConcat("{", r4); }
    assert SkipSpan(r4, NotCloseBrace) == r5 by { assert r5[0] == '}'; SkipSpanOver(body, r5, NotCloseBrace); }
    assert StartsWith(r5, "});") by { assert r5[..3] == "});"; }
    assert r4[..|r4| - |r5|] == body;
  }

  /** `(\w+):\s*\(\)\s*=>\s*(\w+)` at the start of `t`: the key (group 1). */
  function EntryAt(t: string): (r: Option<string>)
    ensures r.Some? ==> |r.value| > 0 && AllIn(r.value, Word)
  {
    var a := SkipSpan(t, Word);
    if |a| == |t| then None
    else
      var b :- Expect(a, ":");
      if ArrowTarget(b) then Some(t[..|t| - |a|]) else None
  }

  /** The tail `\s*\(\)\s*=>\s*\w` of the entry pattern (the target needs one word character). */
  predicate ArrowTarget(b: string) {
    var c := Expect(SkipSpan(b, Space), "()");
    c.Some? &&
    var d := Expect(SkipSpan(c.value, Space), "=>");
    d.Some? &&
    var e := SkipSpan(d.value, Space);
    |e| > 0 && IsWordChar(e[0])
  }

  /** The entry pattern needs a colon right after the key. */
  lemma EntryAtNeedsColon(t: string)
    requires ':' !in t
    ensures EntryAt(t).None?
  {
    var a := SkipSpan(t, Word);
    if 0 < |a| {
      assert a[0] == t[|t| - |a|];
      assert Expect(a, ":").None?;
    }
  }

  /** One entry of the block: `entry.trim().match(…)` gives `match[1]`, or null. */
  function EntryKey(entry: string): (r: Option<string>)
    ensures r.Some? ==> |r.value| > 0 && AllIn(r.value, Word)
  {
    var t := Trim(entry);
    match FindFirst(EntryAt, t, 0)
    case None => None
    case Some(k) => EntryAt(t[k..])
  }

  /** How esbuild writes one export: a getter from the exported name to its binding. */
  function Getter(k: string, t: string): string {
    k + ": () => " + t
  }

  /** The text after the colon of a getter, ` () => t`, piece by piece. */
  function ArrowTail(t: string): string {
    " " + ("()" + (" " + ("=>" + (" " + t))))
  }

  lemma GetterParts(k: string, t: string)
    ensures Getter(k, t) == k + (":" + ArrowTail(t))
  {
  }

  /** One space before text that does not start with white space is skipped. */
  lemma SkipOneSpace(x: string)
    requires x != "" && !InClass(x[0], Space)
    ensures SkipSpan(" " + x, Space) == x
  {
    assert AllIn(" ", Space);
    SkipSpanOver(" ", x, Space);
  }

  lemma ArrowTargetOf(t: string)
    requires |t| > 0 && AllIn(t, Word)
    ensures ArrowTarget(ArrowTail(t))
  {
    var r6 := " " + t;
    var r5 := "=>" + r6;
    var r4 := " " + r5;
    var r3 := "()" + r4;
    assert SkipSpan(" " + r3, Space) == r3 by {
      assert r3[0] == '(';
      SkipOneSpace(r3);
    }
    assert Expect(r3, "()") == Some(r4) by {
      ExpectConcat("()", r4);
    }
    assert SkipSpan(r4, Space) == r5 by {
      assert r5[0] == '=';
      SkipOneSpace(r5);
    }
    assert Expect(r5, "=>") == Some(r6) by {
      ExpectConcat("=>", r6);
    }
    assert SkipSpan(r6, Space) == t by {
      assert InClass(t[0], Word);
      SkipOneSpace(t);
    }
  }

  lemma EntryAtGetter(k: string, t: string)
    requires |k| > 0 && AllIn(k, Word) && |t| > 0 && AllIn(t, Word)
    ensures EntryAt(k + (":" + ArrowTail(t))) == Some(k)
  {
    var r2 := ArrowTail(t);
    var r1 := ":" + r2;
    assert SkipSpan(k + r1, Word) == r1 by {
      assert r1[0] == ':';
      SkipSpanOver(k, r1, Word);
    }
    assert Expect(r1, ":") == Some(r2) by {
      ExpectConcat(":", r2);
    }
    ArrowTargetOf(t);
    assert (k + r1)[..|k + r1| - |r1|] == k;
  }

  /** A getter entry padded with white space, as `split(",")` leaves it, yields its key. */
  lemma GetterEntryKey(w1: string, k: string, t: string, w2: string)
    requires AllIn(w1, Space) && AllIn(w2, Space)
    requires |k| > 0 && AllIn(k, Word) && |t| > 0 && AllIn(t, Word)
    ensures EntryKey(w1 + Getter(k, t) + w2) == Some(k)
  {
    var x := Getter(k, t);
    GetterParts(k, t);
    assert InClass(k[0], Word) && InClass(t[|t| - 1], Word);
    assert x[0] == k[0] && x[|x| - 1] == t[|t| - 1];
    assert w1 + x + w2 == w1 + (x + w2);
    TrimAround(w1, x, w2);
    EntryAtGetter(k, t);
    assert x[0..] == x;
  }

  /** An entry without a colon is dropped. */
  lemma EntryWithoutColon(entry: string)
    requires ':' !in entry
    ensures EntryKey(entry).None?
  {
    var t := Trim(entry);
    TrimInside(entry);
    forall k | 0 <= k < |t| ensures EntryAt(t[k..]).None? {
      forall m | 0 <= m < |t[k..]| ensures t[k..][m] != ':' {
        assert t[k..][m] == t[k + m];
      }
      EntryAtNeedsColon(t[k..]);
    }
  }

  /** `exportsContent.split(",").map(…).filter(Boolean)`. */
  function ParseExportKeys(content: string): (keys: seq<string>)
    ensures forall k :: 0 <= k < |keys| ==> |keys[k]| > 0 && AllIn(keys[k], Word)
  {
    var entries := Split(content, ",");
    DefinedKeysAreWords(entries);
    MapDefined(EntryKey, entries)
  }

  lemma {:induction false} DefinedKeysAreWords(entries: seq<string>)
    ensures forall k :: 0 <= k < |MapDefined(EntryKey, entries)| ==>
      |MapDefined(EntryKey, entries)[k]| > 0 && AllIn(MapDefined(EntryKey, entries)[k], Word)
    decreases |entries|
  {
    if |entries| > 0 {
      DefinedKeysAreWords(entries[..|entries| - 1]);
    }
  }

  /** The entries esbuild writes inside the braces: one getter per key, each on its own line. */
  function GetterEntries(keys: seq<string>, targets: seq<string>): (es: seq<string>)
    requires |keys| == |targets|
    ensures |es| == |keys|
    ensures forall i :: 0 <= i < |keys| ==> es[i] == "\n  " + Getter(keys[i], targets[i])
    decreases |keys|
  {
    if |keys| == 0 then []
    else
      var init := GetterEntries(keys[..|keys| - 1], targets[..|targets| - 1]);
      init + ["\n  " + Getter(keys[|keys| - 1], targets[|targets| - 1])]
  }

  lemma WordsHaveNoComma(w: string)
    requires AllIn(w, Word)
    ensures ',' !in w
  {
    forall m | 0 <= m < |w| ensures w[m] != ',' {
      assert InClass(w[m], Word);
    }
  }

  /** One getter line of the block, with the line break that ends the last one. */
  lemma PaddedGetterEntry(k: string, t: string, w2: string)
    requires |k| > 0 && AllIn(k, Word) && |t| > 0 && AllIn(t, Word) && (w2 == "" || w2 == "\n")
    ensures ',' !in "\n  " + Getter(k, t) + w2
    ensures EntryKey("\n  " + Getter(k, t) + w2) == Some(k)
  {
    GetterHasNoComma(k, t);
    assert AllIn("\n  ", Space) && AllIn(w2, Space);
    GetterEntryKey("\n  ", k, t, w2);
  }

  lemma GetterHasNoComma(k: string, t: string)
    requires AllIn(k, Word) && AllIn(t, Word)
    ensures ',' !in Getter(k, t)
  {
    WordsHaveNoComma(k);
    WordsHaveNoComma(t);
  }

  /**
   * The keys of an `__export` block of getters are parsed back in order, each
   * once, whatever the getters' targets are.
   */
  lemma {:induction false} ParseGetterBlock(keys: seq<string>, targets: seq<string>)
    requires |keys| == |targets| && |keys| > 0
    requires forall i :: 0 <= i < |keys| ==> |keys[i]| > 0 && AllIn(keys[i], Word)
    requires forall i :: 0 <= i < |targets| ==> |targets[i]| > 0 && AllIn(targets[i], Word)
    ensures ParseExportKeys(Join(GetterEntries(keys, targets), ",") + "\n") == keys
  {
    var es := GetterEntries(keys, targets);
    var n := |es|;
    var padded := es[..n - 1] + [es[n - 1] + "\n"];
    JoinLast(es, ",", "\n");
    forall i | 0 <= i < n ensures ',' !in padded[i] && EntryKey(padded[i]) == Some(keys[i]) {
      if i == n - 1 {
        PaddedGetterEntry(keys[i], targets[i], "\n");
      } else {
        PaddedGetterEntry(keys[i], targets[i], "");
        assert padded[i] == es[i] == es[i] + "";
      }
    }
    SplitJoin(padded, ',');
    MapDefinedAll(EntryKey, padded, keys);
  }

  // ---------------------------------------------------------------------------
  // The direct export assignments

  /** The line emitted for one key: the key on both sides. */
  function ExportLine(k: string): string {
    "exports." + k + " = " + k + ";"
  }

  function ExportLines(keys: seq<string>): (lines: seq<string>)
    ensures |lines| == |keys|
    ensures forall i :: 0 <= i < |keys| ==> lines[i] == ExportLine(keys[i])
    decreases |keys|
  {
    if |keys| == 0 then [] else [ExportLine(keys[0])] + ExportLines(keys[1..])
  }

  /** `directExports`: the lines joined with "\n". */
  function DirectExports(keys: seq<string>): string {
    Join(ExportLines(keys), "\n")
  }

  lemma ExportLineOneLine(k: string)
    requires AllIn(k, Word)
    ensures '\n' !in ExportLine(k)
  {
    forall m | 0 <= m < |k| ensures k[m] != '\n' {
      assert InClass(k[m], Word);
    }
  }

  /** The block holds one assignment line per key, in key order and nothing else. */
  lemma DirectExportsLines(keys: seq<string>)
    requires |keys| > 0 && forall i :: 0 <= i < |keys| ==> AllIn(keys[i], Word)
    ensures Split(DirectExports(keys), "\n") == ExportLines(keys)
  {
    var lines := ExportLines(keys);
    forall i | 0 <= i < |lines| ensures '\n' !in lines[i] {
      ExportLineOneLine(keys[i]);
    }
    SplitJoin(lines, '\n');
  }

  /** The annotation comment esbuild writes before the CommonJS export names. */
  const Annotation: string := "// Annotate the CommonJS export names for ESM import in node:"

  /** `code.replace(annotation, directExports + "\n" + annotation)`: first occurrence only. */
  function InsertBeforeAnnotation(code: string, block: string): (r: string)
    ensures IndexOf(code, Annotation).None? ==> r == code
    ensures IndexOf(code, Annotation).Some? ==>
      var i := IndexOf(code, Annotation).value;
      |r| == |code| + |block| + 1 && r[..i] == code[..i] && r[i + |block| + 1..] == code[i..]
      && r[i..i + |block| + 1] == block + "\n"
  {
    match IndexOf(code, Annotation)
    case None => code
    case Some(i) => code[..i] + block + "\n" + code[i..]
  }

  /** The export rewrite of the bundled text, after the `node:` rewrite. */
  function ExportRewrite(code: string): string {
    match FindFirst(ExportBlockAt, code, 0)
    case None => code
    case Some(k) =>
      var content := ExportBlockAt(code[k..]).value;
      InsertBeforeAnnotation(ReplaceAll(MatchToCommonJs, code, ""), DirectExports(ParseExportKeys(content)))
  }

  /** The whole post-processing chain applied to esbuild's output. */
  function PostProcess(code: string): string {
    ReplaceAll(MatchZeroExports, ExportRewrite(ReplaceAll(MatchNodeRequire, code, "{}")), "")
  }

  // ---------------------------------------------------------------------------
  // Building the providers

  /** `process.env.SKIP_MINIFY === "true"`: any other value, or none, minifies. */
  predicate SkipMinify(env: Option<string>) {
    env == Some("true")
  }

  /** The modules looked for in each provider directory, in build order. */
  const ModuleNames: seq<string> := ["catalog", "posts", "meta", "stream", "episodes"]

  /** What one run of the bundler or the minifier gave: its output text, or that it threw. */
  datatype ToolRun = Threw | Produced(text: string)

  /**
   * The environment of one build: the `(provider, module)` pairs whose
   * `providers/<provider>/<module>.ts` exists, what esbuild gives for each,
   * what terser gives for a post-processed text, and the value of the
   * `SKIP_MINIFY` environment variable (None when it is unset).
   */
  datatype Toolchain = Toolchain(
    sources: set<(string, string)>,
    bundle: (string, string) -> ToolRun,
    minify: string -> ToolRun,
    skipMinifyVar: Option<string>)

  /**
   * `code.length`: the number of UTF-16 code units, so a character outside
   * the Basic Multilingual Plane (a surrogate pair) counts twice.
   */
  function Utf16Length(s: string): (n: nat)
    ensures |s| <= n <= 2 * |s|
    decreases |s|
  {
    if |s| == 0 then 0
    else Utf16Length(s[..|s| - 1]) + (if s[|s| - 1] as int < 0x1_0000 then 1 else 2)
  }

  /** Text made of Basic Multilingual Plane characters only has one code unit per character. */
  lemma {:induction false} Utf16LengthBmp(s: string)
    requires forall m :: 0 <= m < |s| ==> s[m] as int < 0x1_0000
    ensures Utf16Length(s) == |s|
    decreases |s|
  {
    if |s| > 0 {
      Utf16LengthBmp(s[..|s| - 1]);
    }
  }

  /** The length of joined texts is the sum of their lengths. */
  lemma {:induction false} Utf16LengthAppend(a: string, b: string)
    ensures Utf16Length(a + b) == Utf16Length(a) + Utf16Length(b)
    decreases |b|
  {
    if |b| == 0 {
      assert a + b == a;
    } else {
      assert (a + b)[..|a + b| - 1] == a + b[..|b| - 1];
      Utf16LengthAppend(a, b[..|b| - 1]);
    }
  }

  /** One entry of `results`: a module written, and the length of its code. */
  datatype ModuleResult = ModuleResult(moduleName: string, size: nat)

  /** What `buildProvider` resolves to. */
  datatype ProviderResult = ProviderResult(providerName: string, modules: seq<ModuleResult>)

  /**
   * The code written for one module, or None when its `try` block threw (the
   * bundler or the minifier threw). Minified code replaces the post-processed
   * text only when it is non-empty, so the written code is empty only when
   * post-processing left nothing.
   */
  function ModuleCode(tc: Toolchain, provider: string, name: string): (r: Option<string>)
    ensures tc.bundle(provider, name).Threw? ==> r.None?
    ensures r.Some? && r.value == "" ==> PostProcess(tc.bundle(provider, name).text) == ""
    ensures tc.bundle(provider, name).Produced? && SkipMinify(tc.skipMinifyVar) ==>
      r == Some(PostProcess(tc.bundle(provider, name).text))
    ensures tc.bundle(provider, name).Produced? && !SkipMinify(tc.skipMinifyVar) ==>
      var code := PostProcess(tc.bundle(provider, name).text);
      (tc.minify(code).Threw? ==> r.None?) &&
      (tc.minify(code).Produced? ==> r == Some(Or(tc.minify(code).text, code)))
  {
    match tc.bundle(provider, name)
    case Threw => None
    case Produced(bundled) =>
      var code := PostProcess(bundled);
      if SkipMinify(tc.skipMinifyVar) then Some(code)
      else
        match tc.minify(code)
        case Threw => None
        case Produced(minified) => Some(if minified != "" then minified else code)
  }

  /** The result pushed for one module, if any: its source exists and its build did not throw. */
  function Outcome(tc: Toolchain, provider: string, name: string): (r: Option<ModuleResult>)
    ensures r.Some? ==> r.value.moduleName == name
  {
    if (provider, name) !in tc.sources then None
    else
      match ModuleCode(tc, provider, name)
      case None => None
      case Some(code) => Some(ModuleResult(name, Utf16Length(code)))
  }

  /** The module names of some results, in order. */
  function NamesOf(rs: seq<ModuleResult>): (ns: seq<string>)
    ensures |ns| == |rs| && forall i :: 0 <= i < |rs| ==> ns[i] == rs[i].moduleName
  {
    seq(|rs|, i requires 0 <= i < |rs| => rs[i].moduleName)
  }

  /** `xs` is `ys` with some elements left out, the others kept in their order. */
  predicate Subsequence<T(==)>(xs: seq<T>, ys: seq<T>)
    decreases |ys|
  {
    |xs| == 0 ||
    (|ys| > 0 &&
     ((xs[|xs| - 1] == ys[|ys| - 1] && Subsequence(xs[..|xs| - 1], ys[..|ys| - 1])) ||
      Subsequence(xs, ys[..|ys| - 1])))
  }

  /** No element occurs twice. */
  predicate Distinct<T(==)>(xs: seq<T>) {
    forall i, j :: 0 <= i < j < |xs| ==> xs[i] != xs[j]
  }

  /** Leaving elements out of a list without repeats keeps it without repeats, and takes nothing new in. */
  lemma {:induction false} SubsequenceDistinct<T>(xs: seq<T>, ys: seq<T>)
    requires Subsequence(xs, ys) && Distinct(ys)
    ensures Distinct(xs) && forall x :: x in xs ==> x in ys
    decreases |ys|
  {
    if |xs| > 0 {
      var ys' := ys[..|ys| - 1];
      assert Distinct(ys');
      if xs[|xs| - 1] == ys[|ys| - 1] && Subsequence(xs[..|xs| - 1], ys') {
        var xs' := xs[..|xs| - 1];
        SubsequenceDistinct(xs', ys');
        assert ys[|ys| - 1] !in ys';
        assert xs == xs' + [ys[|ys| - 1]];
      } else {
        SubsequenceDistinct(xs, ys');
      }
    }
  }

  lemma ModuleNamesDistinct()
    ensures Distinct(ModuleNames)
  {
  }

  /** Appending at most the result of the next name keeps the names a subsequence. */
  lemma NamesStep(front: seq<ModuleResult>, tail: seq<ModuleResult>, init: seq<string>, last: string)
    requires Subsequence(NamesOf(front), init)
    requires tail == [] || (|tail| == 1 && tail[0].moduleName == last)
    ensures Subsequence(NamesOf(front + tail), init + [last])
  {
    var ys := init + [last];
    assert ys[..|ys| - 1] == init;
    var xs := NamesOf(front + tail);
    if tail == [] {
      assert front + tail == front;
      assert Subsequence(xs, ys[..|ys| - 1]);
    } else {
      assert xs[..|xs| - 1] == NamesOf(front);
      assert xs[|xs| - 1] == ys[|ys| - 1];
    }
  }

  /** The results of building the modules `names` of one provider, in order. */
  function Built(tc: Toolchain, provider: string, names: seq<string>): (rs: seq<ModuleResult>)
    ensures |rs| <= |names|
    ensures Subsequence(NamesOf(rs), names)
    ensures forall r :: r in rs ==> r.moduleName in names && Outcome(tc, provider, r.moduleName) == Some(r)
    ensures forall n :: n in names && Outcome(tc, provider, n).Some? ==> Outcome(tc, provider, n).value in rs
    decreases |names|
  {
    if |names| == 0 then []
    else
      var init := names[..|names| - 1];
      var last := names[|names| - 1];
      assert names == init + [last];
      var front := Built(tc, provider, init);
      var tail := match Outcome(tc, provider, last) case Some(r) => [r] case None => [];
      NamesStep(front, tail, init, last);
      front + tail
  }

  lemma BuiltStep(tc: Toolchain, provider: string, names: seq<string>, i: nat)
    requires i < |names|
    ensures Built(tc, provider, names[..i + 1])
         == Built(tc, provider, names[..i]) + (match Outcome(tc, provider, names[i]) case Some(r) => [r] case None => [])
  {
    assert names[..i + 1][..i] == names[..i];
  }

  /** `buildProvider(providerName)`: the modules loop, each module in its own `try`. */
  method BuildProvider(tc: Toolchain, providerName: string) returns (result: ProviderResult)
    ensures result == ProviderBuild(tc, providerName)
  {
    var results: seq<ModuleResult> := [];
    for i := 0 to |ModuleNames|
      invariant results == Built(tc, providerName, ModuleNames[..i])
    {
      BuiltStep(tc, providerName, ModuleNames, i);
      var moduleName := ModuleNames[i];
      if (providerName, moduleName) in tc.sources {
        var code := ModuleCode(tc, providerName, moduleName);
        if code.Some? {
          results := results + [ModuleResult(moduleName, Utf16Length(code.value))];
        }
      }
    }
    assert ModuleNames[..|ModuleNames|] == ModuleNames;
    result := ProviderResult(providerName, results);
  }

  /** What building one provider gives. */
  function ProviderBuild(tc: Toolchain, provider: string): (r: ProviderResult)
    ensures r.providerName == provider && |r.modules| <= 5
    ensures Subsequence(NamesOf(r.modules), ModuleNames) && Distinct(NamesOf(r.modules))
  {
    var rs := Built(tc, provider, ModuleNames);
    ModuleNamesDistinct();
    SubsequenceDistinct(NamesOf(rs), ModuleNames);
    ProviderResult(provider, rs)
  }

  /** The sum of the sizes of some module results (the inner `reduce`). */
  function ModulesSize(ms: seq<ModuleResult>): nat
    decreases |ms|
  {
    if |ms| == 0 then 0 else ModulesSize(ms[..|ms| - 1]) + ms[|ms| - 1].size
  }

  /** `totalModules`: how many modules all providers wrote. */
  function TotalModules(results: seq<ProviderResult>): nat
    decreases |results|
  {
    if |results| == 0 then 0
    else TotalModules(results[..|results| - 1]) + |results[|results| - 1].modules|
  }

  /** `totalSize`: the summed size of every module written. */
  function TotalSize(results: seq<ProviderResult>): nat
    decreases |results|
  {
    if |results| == 0 then 0
    else TotalSize(results[..|results| - 1]) + ModulesSize(results[|results| - 1].modules)
  }

  /** Both totals add up over a split of the providers, so their order does not matter to them. */
  lemma {:induction false} TotalsAppend(a: seq<ProviderResult>, b: seq<ProviderResult>)
    ensures TotalModules(a + b) == TotalModules(a) + TotalModules(b)
    ensures TotalSize(a + b) == TotalSize(a) + TotalSize(b)
    decreases |b|
  {
    if |b| == 0 {
      assert a + b == a;
    } else {
      var init := b[..|b| - 1];
      assert (a + b)[..|a + b| - 1] == a + init;
      assert (a + b)[|a + b| - 1] == b[|b| - 1];
      TotalsAppend(a, init);
    }
  }

  /** The total module count is at most five per provider built. */
  lemma {:induction false} BuildsModules(tc: Toolchain, providers: seq<string>)
    ensures TotalModules(Builds(tc, providers)) <= 5 * |providers|
    decreases |providers|
  {
    if |providers| > 0 {
      var init := providers[..|providers| - 1];
      BuildsModules(tc, init);
      assert Builds(tc, providers)[..|providers| - 1] == Builds(tc, init);
    }
  }

  /** A module result's size is the length of the code written; the total size is their sum. */
  lemma {:induction false} ModulesSizeOne(ms: seq<ModuleResult>, m: ModuleResult)
    ensures ModulesSize(ms + [m]) == ModulesSize(ms) + m.size
  {
    assert (ms + [m])[..|ms|] == ms;
  }

  /** The build results of some providers, in their order (what `Promise.all` resolves to). */
  function Builds(tc: Toolchain, providers: seq<string>): (rs: seq<ProviderResult>)
    ensures |rs| == |providers|
    decreases |providers|
  {
    if |providers| == 0 then []
    else Builds(tc, providers[..|providers| - 1]) + [ProviderBuild(tc, providers[|providers| - 1])]
  }

  /**
   * `buildAll()`: every provider found by the directory scan of `providers/`
   * is built, the results kept in that order, then the two totals are reduced.
   */
  method BuildAll(tc: Toolchain, entries: seq<Dirent>)
    returns (results: seq<ProviderResult>, totalModules: nat, totalSize: nat)
    ensures results == Builds(tc, ProviderDirs(entries))
    ensures totalModules == TotalModules(results) && totalSize == TotalSize(results)
    ensures totalModules <= 5 * |ProviderDirs(entries)|
  {
    var providerDirs := ProviderDirs(entries);
    results := BuildProviders(tc, providerDirs);
    BuildsModules(tc, providerDirs);
    totalModules := TotalModules(results);
    totalSize := TotalSize(results);
  }

  /** `Promise.all(providerDirs.map(buildProvider))`: one result per provider, in order. */
  method BuildProviders(tc: Toolchain, providerDirs: seq<string>) returns (results: seq<ProviderResult>)
    ensures results == Builds(tc, providerDirs)
  {
    results := [];
    for i := 0 to |providerDirs|
      invariant results == Builds(tc, providerDirs[..i])
    {
      var r := BuildProvider(tc, providerDirs[i]);
      assert providerDirs[..i + 1][..i] == providerDirs[..i];
      results := results + [r];
    }
    assert providerDirs[..|providerDirs|] == providerDirs;
  }
}
