/**
 * The JavaScript string and array built-ins the scripts rely on, stated over
 * `seq<char>`: `indexOf`, `includes`, `startsWith`, `split`, `join`, `trim`,
 * `Array.prototype.slice` with a relative end, `parseInt`, the character
 * classes of regular expressions (`\s`, `\w`, `\d`, `[^/]`, ...), and the
 * truthiness that `||` and `if (s)` apply to strings.
 */
module JsText {
  import opened Values

  /** `a || b` on two strings: only "" is falsy. */
  function Or(a: string, b: string): string {
    if a != "" then a else b
  }

  /** `a || b` where `a` may be `undefined`. */
  function OrElse(a: Option<string>, b: string): string {
    if a.Some? && a.value != "" then a.value else b
  }

  // ---------------------------------------------------------------------------
  // Searching

  /** `p` occurs in `s` starting at index `i`. */
  predicate OccursAt(s: string, p: string, i: int) {
    0 <= i && i + |p| <= |s| && s[i..i + |p|] == p
  }

  /** `s.startsWith(p)`. */
  predicate StartsWith(s: string, p: string) {
    OccursAt(s, p, 0)
  }

  /** `s.indexOf(p, from)`: the first occurrence at or after `from`, None for -1. */
  function IndexOfFrom(s: string, p: string, from: nat): (r: Option<nat>)
    ensures r.Some? ==> from <= r.value && OccursAt(s, p, r.value)
    ensures forall j :: from <= j && OccursAt(s, p, j) ==> r.Some? && r.value <= j
    decreases |s| - from
  {
    if from + |p| > |s| then None
    else if s[from..from + |p|] == p then Some(from)
    else IndexOfFrom(s, p, from + 1)
  }

  /** `s.indexOf(p)`. */
  function IndexOf(s: string, p: string): Option<nat> {
    IndexOfFrom(s, p, 0)
  }

  /** `s.includes(p)`. */
  predicate Contains(s: string, p: string) {
    IndexOf(s, p).Some?
  }

  /** A string that contains `p` contains every prefix of `p`. */
  lemma ContainsPrefixOf(s: string, p: string, q: string)
    requires Contains(s, p) && StartsWith(p, q)
    ensures Contains(s, q)
  {
    var i := IndexOf(s, p).value;
    assert s[i..i + |q|] == s[i..i + |p|][..|q|];
    assert OccursAt(s, q, i);
  }

  /** A one-character pattern occurs exactly where that character is. */
  lemma OccursAtChar(s: string, c: char, i: int)
    ensures OccursAt(s, [c], i) <==> 0 <= i < |s| && s[i] == c
  {
    if 0 <= i < |s| {
      assert s[i..i + 1] == [s[i]];
    }
  }

  /** `s.indexOf(c)` for a one-character `c`, characterised by the characters of `s`. */
  lemma IndexOfChar(s: string, c: char)
    ensures IndexOf(s, [c]).None? <==> c !in s
    ensures IndexOf(s, [c]).Some? ==>
      var i := IndexOf(s, [c]).value;
      i < |s| && s[i] == c && c !in s[..i]
  {
    var r := IndexOf(s, [c]);
    if c in s {
      var j :| 0 <= j < |s| && s[j] == c;
      OccursAtChar(s, c, j);
    }
    if r.Some? {
      OccursAtChar(s, c, r.value);
      forall j | 0 <= j < r.value ensures s[j] != c {
        OccursAtChar(s, c, j);
      }
    }
  }

  // ---------------------------------------------------------------------------
  // split and join

  /** `s.split(sep)` for a non-empty separator. */
  function Split(s: string, sep: string): (parts: seq<string>)
    requires |sep| > 0
    ensures |parts| >= 1
    decreases |s|
  {
    match IndexOf(s, sep)
    case None => [s]
    case Some(i) => [s[..i]] + Split(s[i + |sep|..], sep)
  }

  /** `parts.join(sep)`. */
  function Join(parts: seq<string>, sep: string): string
    decreases |parts|
  {
    if |parts| == 0 then ""
    else if |parts| == 1 then parts[0]
    else parts[0] + sep + Join(parts[1..], sep)
  }

  /** `s.split(sep)[k]`, undefined when there are not enough parts. */
  function SplitPiece(s: string, sep: string, k: nat): Option<string>
    requires |sep| > 0
  {
    var parts := Split(s, sep);
    if k < |parts| then Some(parts[k]) else None
  }

  lemma JoinCons(a: string, parts: seq<string>, sep: string)
    requires |parts| >= 1
    ensures Join([a] + parts, sep) == a + sep + Join(parts, sep)
  {
    assert ([a] + parts)[1..] == parts;
  }

  /** Joining the pieces of a split with the same separator gives back the string. */
  lemma {:induction false} JoinSplit(s: string, sep: string)
    requires |sep| > 0
    ensures Join(Split(s, sep), sep) == s
    decreases |s|
  {
    var r := IndexOf(s, sep);
    if r.Some? {
      var i := r.value;
      var rest := s[i + |sep|..];
      assert Split(s, sep) == [s[..i]] + Split(rest, sep);
      JoinSplit(rest, sep);
      JoinCons(s[..i], Split(rest, sep), sep);
      assert s == s[..i] + s[i..i + |sep|] + rest;
    }
  }

  /** A string without the separator character splits into itself alone. */
  lemma SplitNoSep(s: string, c: char)
    requires c !in s
    ensures Split(s, [c]) == [s]
  {
    IndexOfChar(s, c);
  }

  /** The first occurrence of a character is where it occurs with none before it. */
  lemma IndexOfCharAt(s: string, c: char, i: nat)
    requires i < |s| && s[i] == c && c !in s[..i]
    ensures IndexOf(s, [c]) == Some(i)
  {
    IndexOfChar(s, c);
    OccursAtChar(s, c, i);
    forall k | 0 <= k < i ensures s[k] != c {
      assert s[k] == s[..i][k];
    }
  }

  /** Splitting on one character distributes over a concatenation around that character. */
  lemma {:induction false} SplitConcat(a: string, c: char, b: string)
    ensures Split(a + [c] + b, [c]) == Split(a, [c]) + Split(b, [c])
    decreases |a|
  {
    var s := a + [c] + b;
    IndexOfChar(a, c);
    if c in a {
      var i := IndexOf(a, [c]).value;
      assert s[..i] == a[..i];
      IndexOfCharAt(s, c, i);
      assert s[i + 1..] == a[i + 1..] + [c] + b;
      SplitConcat(a[i + 1..], c, b);
    } else {
      assert s[..|a|] == a;
      IndexOfCharAt(s, c, |a|);
      assert s[|a| + 1..] == b;
      SplitNoSep(a, c);
    }
  }

  /** Splitting the join of parts free of the separator character gives back the parts. */
  lemma {:induction false} SplitJoin(parts: seq<string>, c: char)
    requires |parts| >= 1
    requires forall k :: 0 <= k < |parts| ==> c !in parts[k]
    ensures Split(Join(parts, [c]), [c]) == parts
    decreases |parts|
  {
    if |parts| == 1 {
      SplitNoSep(parts[0], c);
    } else {
      var rest := parts[1..];
      assert parts == [parts[0]] + rest;
      JoinCons(parts[0], rest, [c]);
      SplitConcat(parts[0], c, Join(rest, [c]));
      SplitNoSep(parts[0], c);
      SplitJoin(rest, c);
    }
  }

  /** Appending to the last part appends to the join. */
  lemma {:induction false} JoinLast(parts: seq<string>, sep: string, tail: string)
    requires |parts| > 0
    ensures Join(parts, sep) + tail == Join(parts[..|parts| - 1] + [parts[|parts| - 1] + tail], sep)
    decreases |parts|
  {
    var n := |parts|;
    var q := parts[..n - 1] + [parts[n - 1] + tail];
    if n > 1 {
      JoinLast(parts[1..], sep, tail);
      assert q[1..] == parts[1..][..n - 2] + [parts[1..][n - 2] + tail];
    }
  }

  /** `xs.map(f).filter(Boolean)`, where `f` gives a value or null: the values, in order. */
  function MapDefined<X, Y>(f: X -> Option<Y>, xs: seq<X>): (ys: seq<Y>)
    ensures |ys| <= |xs|
    decreases |xs|
  {
    if |xs| == 0 then []
    else
      var init := MapDefined(f, xs[..|xs| - 1]);
      init + (match f(xs[|xs| - 1]) case Some(y) => [y] case None => [])
  }

  /** When `f` gives a value for every element, those values come out in order. */
  lemma {:induction false} MapDefinedAll<X, Y>(f: X -> Option<Y>, xs: seq<X>, ys: seq<Y>)
    requires |xs| == |ys|
    requires forall i :: 0 <= i < |xs| ==> f(xs[i]) == Some(ys[i])
    ensures MapDefined(f, xs) == ys
    decreases |xs|
  {
    var n := |xs|;
    if n > 0 {
      MapDefinedAll(f, xs[..n - 1], ys[..n - 1]);
      assert ys == ys[..n - 1] + [ys[n - 1]];
    }
  }

  /** Mapping distributes over concatenation. */
  lemma {:induction false} MapDefinedAppend<X, Y>(f: X -> Option<Y>, a: seq<X>, b: seq<X>)
    ensures MapDefined(f, a + b) == MapDefined(f, a) + MapDefined(f, b)
    decreases |b|
  {
    if |b| == 0 {
      assert a + b == a;
    } else {
      var init := b[..|b| - 1];
      assert (a + b)[..|a + b| - 1] == a + init;
      assert (a + b)[|a + b| - 1] == b[|b| - 1];
      MapDefinedAppend(f, a, init);
    }
  }

  /** Every value produced is the value of some element. */
  lemma {:induction false} MapDefinedFrom<X, Y>(f: X -> Option<Y>, xs: seq<X>)
    ensures forall y :: y in MapDefined(f, xs) ==> exists x :: x in xs && f(x) == Some(y)
    decreases |xs|
  {
    if |xs| > 0 {
      var init := xs[..|xs| - 1];
      MapDefinedFrom(f, init);
      forall y | y in MapDefined(f, xs) ensures exists x :: x in xs && f(x) == Some(y) {
        if y in MapDefined(f, init) {
          var x :| x in init && f(x) == Some(y);
          assert x in xs;
        } else {
          assert f(xs[|xs| - 1]) == Some(y);
        }
      }
    }
  }

  /** Every element's value is produced. */
  lemma {:induction false} MapDefinedTo<X, Y>(f: X -> Option<Y>, xs: seq<X>, x: X)
    requires x in xs && f(x).Some?
    ensures f(x).value in MapDefined(f, xs)
    decreases |xs|
  {
    var n := |xs|;
    if xs[n - 1] != x {
      assert x in xs[..n - 1];
      MapDefinedTo(f, xs[..n - 1], x);
    }
  }

  /** `arr.slice(0, end)` keeps this many of `n` elements (a negative end counts from the back). */
  function SliceEnd(n: nat, end: int): (k: nat)
    ensures k <= n
    ensures end >= 0 ==> k == if end < n then end else n
    ensures end < 0 ==> k == if n + end > 0 then n + end else 0
  {
    if end >= 0 then (if end < n then end else n)
    else if n + end > 0 then n + end else 0
  }

  // ---------------------------------------------------------------------------
  // Character classes and greedy runs

  /** The character classes the scripts' regular expressions and `trim` use. */
  datatype CharClass =
    | Space              // `\s`, also what `trim` and `parseInt` strip
    | Word               // `\w`
    | Decimal            // `\d`, and the digits of `parseInt` in radix 10
    | Hexadecimal        // the digits of `parseInt` in radix 16
    | NotSlash           // `[^\/]`
    | NotCloseBrace      // `[^}]`
    | NotApostrophe      // `[^']`

  /** JavaScript `WhiteSpace` and `LineTerminator` characters. */
  predicate IsJsSpace(c: char) {
    || c == '\t' || c == '\n' || c == '\U{B}' || c == '\U{C}' || c == '\r' || c == ' '
    || c == '\U{A0}' || c == '\U{1680}' || ('\U{2000}' <= c <= '\U{200A}')
    || c == '\U{2028}' || c == '\U{2029}' || c == '\U{202F}' || c == '\U{205F}'
    || c == '\U{3000}' || c == '\U{FEFF}'
  }

  predicate IsDecimal(c: char) {
    '0' <= c <= '9'
  }

  predicate IsWordChar(c: char) {
    ('a' <= c <= 'z') || ('A' <= c <= 'Z') || IsDecimal(c) || c == '_'
  }

  predicate InClass(c: char, k: CharClass) {
    match k
    case Space => IsJsSpace(c)
    case Word => IsWordChar(c)
    case Decimal => IsDecimal(c)
    case Hexadecimal => IsDecimal(c) || ('a' <= c <= 'f') || ('A' <= c <= 'F')
    case NotSlash => c != '/'
    case NotCloseBrace => c != '}'
    case NotApostrophe => c != '\''
  }

  /** Every character of `s` is in class `k`. */
  predicate AllIn(s: string, k: CharClass) {
    forall m :: 0 <= m < |s| ==> InClass(s[m], k)
  }

  /** The end of the longest run of class-`k` characters starting at `i` (a greedy `k*`). */
  function SpanEnd(s: string, i: nat, k: CharClass): (j: nat)
    requires i <= |s|
    ensures i <= j <= |s|
    ensures forall m :: i <= m < j ==> InClass(s[m], k)
    ensures j == |s| || !InClass(s[j], k)
    decreases |s| - i
  {
    if i < |s| && InClass(s[i], k) then SpanEnd(s, i + 1, k) else i
  }

  /** A run of class-`k` characters followed by a character outside `k` is exactly what `SpanEnd` skips. */
  lemma SpanEndOver(s: string, i: nat, run: string, k: CharClass)
    requires i + |run| <= |s| && s[i..i + |run|] == run && AllIn(run, k)
    requires i + |run| == |s| || !InClass(s[i + |run|], k)
    ensures SpanEnd(s, i, k) == i + |run|
  {
    forall m | i <= m < i + |run| ensures InClass(s[m], k) {
      assert s[m] == run[m - i];
    }
  }

  // ---------------------------------------------------------------------------
  // trim

  /** The text after the longest leading run of class-`k` characters. */
  function SkipSpan(s: string, k: CharClass): (r: string)
    ensures |r| <= |s| && r == s[|s| - |r|..]
    ensures AllIn(s[..|s| - |r|], k)
    ensures r == "" || !InClass(r[0], k)
  {
    s[SpanEnd(s, 0, k)..]
  }

  /** Skipping a run of class-`k` characters that is followed by something else leaves that something. */
  lemma SkipSpanOver(run: string, rest: string, k: CharClass)
    requires AllIn(run, k) && (rest == "" || !InClass(rest[0], k))
    ensures SkipSpan(run + rest, k) == rest
  {
    var s := run + rest;
    assert s[0..|run|] == run;
    assert |run| < |s| ==> s[|run|] == rest[0];
    SpanEndOver(s, 0, run, k);
    assert s[|run|..] == rest;
  }

  /** `s.match(re)` without `/g`: the leftmost position at or after `i` where `m` matches. */
  function FindFirst<T>(m: string -> Option<T>, s: string, i: nat): (r: Option<nat>)
    requires i <= |s|
    ensures r.Some? ==> i <= r.value < |s| && m(s[r.value..]).Some?
    ensures r.Some? ==> forall k :: i <= k < r.value ==> m(s[k..]).None?
    ensures r.None? ==> forall k :: i <= k < |s| ==> m(s[k..]).None?
    decreases |s| - i
  {
    if i == |s| then None
    else if m(s[i..]).Some? then Some(i)
    else FindFirst(m, s, i + 1)
  }

  /** The longest leading run of class-`k` characters. */
  function SpanPrefix(s: string, k: CharClass): (r: string)
    ensures |r| <= |s| && r == s[..|r|] && AllIn(r, k)
    ensures |r| == |s| || !InClass(s[|r|], k)
  {
    s[..SpanEnd(s, 0, k)]
  }

  /** A run of class-`k` characters followed by something else is exactly the leading run. */
  lemma SpanPrefixOver(run: string, rest: string, k: CharClass)
    requires AllIn(run, k) && (rest == "" || !InClass(rest[0], k))
    ensures SpanPrefix(run + rest, k) == run
  {
    var s := run + rest;
    assert s[0..|run|] == run;
    assert |run| < |s| ==> s[|run|] == rest[0];
    SpanEndOver(s, 0, run, k);
    assert s[..|run|] == run;
  }

  /** Consuming the literal `lit` at the start of `s`: what follows it, if it is there. */
  function Expect(s: string, lit: string): (r: Option<string>)
    ensures r.Some? <==> StartsWith(s, lit)
    ensures r.Some? ==> r.value == s[|lit|..]
  {
    if StartsWith(s, lit) then Some(s[|lit|..]) else None
  }

  lemma ExpectConcat(lit: string, rest: string)
    ensures Expect(lit + rest, lit) == Some(rest)
  {
    assert (lit + rest)[..|lit|] == lit;
    assert (lit + rest)[|lit|..] == rest;
  }

  /** `s.trimStart()`: drops exactly the leading run of white space. */
  function TrimStart(s: string): (r: string)
    ensures |r| <= |s| && r == s[|s| - |r|..]
    ensures AllIn(s[..|s| - |r|], Space)
    ensures r == "" || !IsJsSpace(r[0])
  {
    SkipSpan(s, Space)
  }

  /** `s.trimEnd()`: drops exactly the trailing run of white space. */
  function TrimEnd(s: string): (r: string)
    ensures |r| <= |s| && r == s[..|r|]
    ensures AllIn(s[|r|..], Space)
    ensures r == "" || !IsJsSpace(r[|r| - 1])
    decreases |s|
  {
    if |s| > 0 && IsJsSpace(s[|s| - 1]) then TrimEnd(s[..|s| - 1]) else s
  }

  /** Trailing white space after text that does not end in white space is exactly what `trimEnd` drops. */
  lemma {:induction false} TrimEndOver(x: string, w: string)
    requires AllIn(w, Space) && (x == "" || !IsJsSpace(x[|x| - 1]))
    ensures TrimEnd(x + w) == x
    decreases |w|
  {
    var s := x + w;
    if |w| == 0 {
      assert s == x;
    } else {
      assert InClass(w[|w| - 1], Space);
      assert s[|s| - 1] == w[|w| - 1];
      assert s[..|s| - 1] == x + w[..|w| - 1];
      TrimEndOver(x, w[..|w| - 1]);
    }
  }

  /** `s.trim()`. */
  function Trim(s: string): string {
    TrimEnd(TrimStart(s))
  }

  /** Text that neither starts nor ends with white space is what `trim` leaves of it padded. */
  lemma TrimAround(w1: string, x: string, w2: string)
    requires AllIn(w1, Space) && AllIn(w2, Space)
    requires |x| > 0 && !IsJsSpace(x[0]) && !IsJsSpace(x[|x| - 1])
    ensures Trim(w1 + (x + w2)) == x
  {
    assert (x + w2)[0] == x[0];
    SkipSpanOver(w1, x + w2, Space);
    TrimEndOver(x, w2);
  }

  /** `trim` keeps a contiguous piece of its input. */
  lemma TrimInside(s: string)
    ensures forall m :: 0 <= m < |Trim(s)| ==> Trim(s)[m] in s
  {
    var t := TrimStart(s);
    var u := TrimEnd(t);
    forall m | 0 <= m < |u| ensures u[m] in s {
      assert u[m] == t[m];
      assert t[m] == s[|s| - |t| + m];
    }
  }

  // ---------------------------------------------------------------------------
  // parseInt

  function DigitValue(c: char): nat {
    if IsDecimal(c) then c as nat - '0' as nat
    else if 'a' <= c <= 'f' then c as nat - 'a' as nat + 10
    else if 'A' <= c <= 'F' then c as nat - 'A' as nat + 10
    else 0
  }

  /** The value of a digit string in the given radix, most significant digit first. */
  function DigitsValue(ds: string, radix: nat): nat
    decreases |ds|
  {
    if |ds| == 0 then 0
    else DigitsValue(ds[..|ds| - 1], radix) * radix + DigitValue(ds[|ds| - 1])
  }

  /**
   * `parseInt(s)` with no radix argument; None is NaN. Leading white space is
   * skipped, one sign is accepted, a `0x`/`0X` prefix selects radix 16, and
   * the longest run of digits that follows is read.
   */
  function ParseInt(s: string): Option<int> {
    var t := TrimStart(s);
    var negative := |t| > 0 && t[0] == '-';
    var u := if |t| > 0 && (t[0] == '-' || t[0] == '+') then t[1..] else t;
    var hex := |u| >= 2 && u[0] == '0' && (u[1] == 'x' || u[1] == 'X');
    var body := if hex then u[2..] else u;
    var n := SpanEnd(body, 0, if hex then Hexadecimal else Decimal);
    if n == 0 then None
    else
      var v: int := DigitsValue(body[..n], if hex then 16 else 10);
      Some(if negative then -v else v)
  }

  /** `parseInt` reads a plain run of decimal digits as its decimal value. */
  lemma ParseIntDecimal(ds: string)
    requires |ds| > 0 && AllIn(ds, Decimal)
    ensures ParseInt(ds) == Some(DigitsValue(ds, 10))
  {
    assert InClass(ds[0], Decimal);
    SkipSpanOver([], ds, Space);
    assert [] + ds == ds;
    var t := TrimStart(ds);
    assert t == ds;
    assert !(|t| > 0 && (t[0] == '-' || t[0] == '+'));
    assert |ds| >= 2 ==> InClass(ds[1], Decimal);
    var hex := |t| >= 2 && t[0] == '0' && (t[1] == 'x' || t[1] == 'X');
    assert !hex;
    SpanEndOver(ds, 0, ds, Decimal);
    assert SpanEnd(ds, 0, Decimal) == |ds|;
    assert ds[..|ds|] == ds;
  }

  /** A string whose first character is neither white space, a sign nor a digit parses to NaN. */
  lemma ParseIntNaN(s: string)
    requires |s| > 0 && !IsJsSpace(s[0]) && !IsDecimal(s[0]) && s[0] != '-' && s[0] != '+'
    ensures ParseInt(s).None?
  {
    SkipSpanOver([], s, Space);
    assert [] + s == s;
    assert TrimStart(s) == s;
  }
}
