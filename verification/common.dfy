/** Shared vocabulary of the transfer scripts: optional values, results, the
    Python string operations they rely on (strip, split, join, replace),
    decimal formatting, truthiness, ordered fallback and de-duplication. */
module Common {

  datatype Option<+T> = None | Some(value: T)

  datatype Result<+T, +E> = Ok(value: T) | Err(error: E)

  /** Environment variables: a variable is either absent or holds a string. */
  type Env = map<string, string>

  /** `os.getenv(key)`, and `dict.get(key)` on any string map. */
  function GetEnv(env: Env, key: string): (r: Option<string>)
    ensures r.Some? <==> key in env
    ensures r.Some? ==> r.value == env[key]
  {
    if key in env then Some(env[key]) else None
  }

  /** `os.getenv(key, default)`: the default is used only when the variable is absent. */
  function GetEnvOr(env: Env, key: string, default: string): (r: string)
    ensures key in env ==> r == env[key]
    ensures key !in env ==> r == default
  {
    if key in env then env[key] else default
  }

  /** Python truthiness of an optional string: `None` and `""` are falsy. */
  predicate Truthy(o: Option<string>) {
    o.Some? && o.value != ""
  }

  /** Python `a or b` on optional strings. */
  function Or(a: Option<string>, b: Option<string>): (r: Option<string>)
    ensures Truthy(a) ==> r == a
    ensures !Truthy(a) ==> r == b
  {
    if Truthy(a) then a else b
  }

  /** Index of the first element satisfying `p`: the control structure of
      every loop that stops at the first success. */
  function FirstIndex<T>(xs: seq<T>, p: T -> bool): (r: Option<nat>)
    ensures r.Some? ==> r.value < |xs| && p(xs[r.value])
    ensures r.Some? ==> forall j :: 0 <= j < r.value ==> !p(xs[j])
    ensures r.None? <==> forall j :: 0 <= j < |xs| ==> !p(xs[j])
  {
    if |xs| == 0 then None
    else if p(xs[0]) then Some(0)
    else match FirstIndex(xs[1..], p)
      case None => None
      case Some(i) => Some(i + 1)
  }

  /** Index of the first truthy entry: the control structure behind every
      "explicit value, then primary variable, then legacy variables" rule. */
  function FirstTruthy(xs: seq<Option<string>>): (r: Option<nat>)
    ensures r.Some? ==> r.value < |xs| && Truthy(xs[r.value])
    ensures r.Some? ==> forall j :: 0 <= j < r.value ==> !Truthy(xs[j])
    ensures r.None? <==> forall j :: 0 <= j < |xs| ==> !Truthy(xs[j])
  {
    FirstIndex(xs, Truthy)
  }

  // ---------------------------------------------------------------------------
  // Characters and strip

  /** Python `str.isspace()` (also what `\s` matches in a `re` pattern on `str`). */
  predicate IsSpace(c: char) {
    c == ' ' || c == '\t' || c == '\n' || c == '\r' || c == '\U{B}' || c == '\U{C}'
    || ('\U{1C}' <= c <= '\U{1F}') || c == '\U{85}' || c == '\U{A0}' || c == '\U{1680}'
    || ('\U{2000}' <= c <= '\U{200A}') || c == '\U{2028}' || c == '\U{2029}'
    || c == '\U{202F}' || c == '\U{205F}' || c == '\U{3000}'
  }

  predicate IsDigit(c: char) {
    '0' <= c <= '9'
  }

  predicate AllSatisfy(s: string, p: char -> bool) {
    forall i :: 0 <= i < |s| ==> p(s[i])
  }

  /** A sequence is its prefix of length `n` followed by the rest. */
  lemma SplitAt<T>(s: seq<T>, n: nat)
    requires n <= |s|
    ensures s == s[..n] + s[n..]
  {
  }

  /** A non-empty sequence is its first element followed by the rest. */
  lemma HeadTail<T>(s: seq<T>)
    requires s != []
    ensures [s[0]] + s[1..] == s
  {
  }

  /** The prefix of length `i + 1` extends the prefix of length `i` by one element. */
  lemma SnocSlice<T>(s: seq<T>, i: nat)
    requires i < |s|
    ensures s[..i] + [s[i]] == s[..i + 1]
  {
  }

  /** The suffix from `i` starts with `s[i]` and goes on with the suffix from `i + 1`. */
  lemma SuffixStep<T>(s: seq<T>, i: nat)
    requires i < |s|
    ensures s[i..][0] == s[i] && s[i..][1..] == s[i + 1..]
  {
  }

  /** Two adjacent slices make up the slice that spans both. */
  lemma SliceConcat<T>(s: seq<T>, i: nat, j: nat, k: nat)
    requires i <= j <= k <= |s|
    ensures s[i..j] + s[j..k] == s[i..k]
  {
  }

  lemma AppendAssoc<T>(a: seq<T>, b: seq<T>, c: seq<T>)
    ensures a + (b + c) == (a + b) + c
  {
  }

  /** A sequence cut around its element at index `n`. */
  lemma SplitAround<T>(s: seq<T>, n: nat)
    requires n < |s|
    ensures s == s[..n] + ([s[n]] + s[n + 1..])
  {
  }

  /** Length of the longest prefix of `s` whose characters satisfy `p` (what a
      greedy `p*` in a regular expression consumes). */
  function SpanLen(s: string, p: char -> bool): (n: nat)
    ensures n <= |s| && AllSatisfy(s[..n], p)
    ensures n == |s| || !p(s[n])
  {
    if |s| > 0 && p(s[0]) then
      var n := 1 + SpanLen(s[1..], p);
      assert s[..n] == [s[0]] + s[1..][..n - 1];
      n
    else 0
  }

  /** A span of `p`-characters followed by something that is not one is consumed exactly. */
  lemma {:induction false} SpanLenPrefix(w: string, rest: string, p: char -> bool)
    requires AllSatisfy(w, p)
    requires rest == [] || !p(rest[0])
    ensures SpanLen(w + rest, p) == |w|
    decreases |w|
  {
    if w == [] {
      assert w + rest == rest;
    } else {
      assert (w + rest)[1..] == w[1..] + rest;
      SpanLenPrefix(w[1..], rest, p);
    }
  }

  /** `s.lstrip(chars)` where `p` says which characters belong to `chars`. */
  function LStripBy(s: string, p: char -> bool): (r: string)
    ensures |r| <= |s| && r == s[|s| - |r|..]
    ensures AllSatisfy(s[..|s| - |r|], p)
    ensures r == [] || !p(r[0])
  {
    if |s| > 0 && p(s[0]) then
      var r := LStripBy(s[1..], p);
      var k := |s| - |r|;
      assert r == s[k..] by {
        assert s[k..] == s[1..][k - 1..];
      }
      assert AllSatisfy(s[..k], p) by {
        var t := s[1..];
        forall i | 0 <= i < k ensures p(s[..k][i]) {
          if i > 0 {
            assert s[..k][i] == t[..k - 1][i - 1];
          }
        }
      }
      r
    else s
  }

  /** `s.rstrip(chars)` */
  function RStripBy(s: string, p: char -> bool): (r: string)
    ensures |r| <= |s| && r == s[..|r|]
    ensures AllSatisfy(s[|r|..], p)
    ensures r == [] || !p(r[|r| - 1])
  {
    if |s| > 0 && p(s[|s| - 1]) then
      var r := RStripBy(s[..|s| - 1], p);
      assert r == s[..|r|];
      assert AllSatisfy(s[|r|..], p) by {
        forall i | |r| <= i < |s| ensures p(s[i]) {
          if i < |s| - 1 {
            assert s[i] == s[..|s| - 1][|r|..][i - |r|];
          }
        }
      }
      r
    else s
  }

  /** Where the kept slice of `s.strip(chars)` ends: the length of `s.rstrip(chars)`. */
  function StripEnd(s: string, p: char -> bool): nat {
    |RStripBy(s, p)|
  }

  /** Where the kept slice of `s.strip(chars)` starts. */
  function StripStart(s: string, p: char -> bool): nat {
    var t := RStripBy(s, p);
    |t| - |LStripBy(t, p)|
  }

  /** `s.strip(chars)`: the slice between the stripped prefix and suffix. */
  function StripBy(s: string, p: char -> bool): (r: string)
    ensures var i, j := StripStart(s, p), StripEnd(s, p);
            && 0 <= i <= j <= |s| && r == s[i..j]
            && AllSatisfy(s[..i], p) && AllSatisfy(s[j..], p)
    ensures r == [] || (!p(r[0]) && !p(r[|r| - 1]))
  {
    var t := RStripBy(s, p);
    var r := LStripBy(t, p);
    var i, j := |t| - |r|, |t|;
    assert r == s[i..j];
    assert s[..i] == t[..i];
    assert AllSatisfy(s[..i], p) && AllSatisfy(s[j..], p);
    r
  }

  /** `s.strip()` */
  function Strip(s: string): (r: string)
    ensures r == [] || (!IsSpace(r[0]) && !IsSpace(r[|r| - 1]))
  {
    StripBy(s, IsSpace)
  }

  lemma {:induction false} LStripNoop(s: string, p: char -> bool)
    requires s == [] || !p(s[0])
    ensures LStripBy(s, p) == s
  {
  }

  lemma {:induction false} RStripNoop(s: string, p: char -> bool)
    requires s == [] || !p(s[|s| - 1])
    ensures RStripBy(s, p) == s
  {
  }

  /** Stripping leaves a string alone exactly when it has nothing to strip. */
  lemma StripByNoop(s: string, p: char -> bool)
    ensures StripBy(s, p) == s <==> (s == [] || (!p(s[0]) && !p(s[|s| - 1])))
  {
    if s == [] || (!p(s[0]) && !p(s[|s| - 1])) {
      RStripNoop(s, p);
      LStripNoop(s, p);
    }
  }

  /** Stripping only removes characters. */
  lemma StripByKeeps(s: string, p: char -> bool, c: char)
    requires c in StripBy(s, p)
    ensures c in s
  {
    var t := RStripBy(s, p);
    var r := LStripBy(t, p);
    assert StripBy(s, p) == r;
    var n :| 0 <= n < |r| && r[n] == c;
    assert t[|t| - |r| + n] == c;
    assert s[|t| - |r| + n] == c;
  }

  /** Stripping twice is stripping once. */
  lemma StripByIdempotent(s: string, p: char -> bool)
    ensures StripBy(StripBy(s, p), p) == StripBy(s, p)
  {
    StripByNoop(StripBy(s, p), p);
  }

  /** Stripping a string surrounded by strippable padding gives back its core. */
  lemma {:induction false} StripByPadded(w1: string, core: string, w2: string, p: char -> bool)
    requires AllSatisfy(w1, p) && AllSatisfy(w2, p)
    requires core == [] || (!p(core[0]) && !p(core[|core| - 1]))
    requires core != [] || w1 == []
    ensures StripBy(w1 + core + w2, p) == core
  {
    RStripPadded(w1 + core, w2, p);
    LStripPadded(w1, core, p);
  }

  lemma {:induction false} RStripPadded(a: string, w: string, p: char -> bool)
    requires AllSatisfy(w, p)
    requires a == [] || !p(a[|a| - 1])
    ensures RStripBy(a + w, p) == a
    decreases |w|
  {
    if w == [] {
      assert a + w == a;
      RStripNoop(a, p);
    } else {
      var w' := w[..|w| - 1];
      assert (a + w)[..|a + w| - 1] == a + w';
      RStripPadded(a, w', p);
    }
  }

  lemma {:induction false} LStripPadded(w: string, a: string, p: char -> bool)
    requires AllSatisfy(w, p)
    requires a == [] || !p(a[0])
    ensures LStripBy(w + a, p) == a
    decreases |w|
  {
    if w == [] {
      assert w + a == a;
      LStripNoop(a, p);
    } else {
      assert (w + a)[1..] == w[1..] + a;
      LStripPadded(w[1..], a, p);
    }
  }

  // ---------------------------------------------------------------------------
  // Split and join on a one-character separator

  /** Index of the first `c` in `s`, or `|s|` when there is none. */
  function IndexOf(s: string, c: char): (i: nat)
    ensures i <= |s|
    ensures c !in s[..i]
    ensures i < |s| ==> s[i] == c
  {
    if |s| == 0 then 0
    else if s[0] == c then 0
    else
      var i := IndexOf(s[1..], c);
      assert s[..i + 1] == [s[0]] + s[1..][..i];
      i + 1
  }

  /** `s.partition(c)` when `c` occurs: the text before the first `c` and the
      text after it; `None` when there is no `c`. */
  function Cut(s: string, c: char): (r: Option<(string, string)>)
    ensures r.None? <==> c !in s
    ensures r.Some? ==> c !in r.value.0 && s == r.value.0 + [c] + r.value.1
  {
    var i := IndexOf(s, c);
    if i == |s| then
      assert s[..i] == s;
      None
    else
      assert s == s[..i] + [c] + s[i + 1..];
      Some((s[..i], s[i + 1..]))
  }

  lemma {:induction false} IndexOfConcat(a: string, c: char, b: string)
    requires c !in a
    ensures IndexOf(a + ([c] + b), c) == |a|
    decreases |a|
  {
    if a != [] {
      assert (a + ([c] + b))[1..] == a[1..] + ([c] + b);
      IndexOfConcat(a[1..], c, b);
    }
  }

  /** Cutting at the first `c` recovers both sides when the left one has no `c`. */
  lemma CutConcat(a: string, c: char, b: string)
    requires c !in a
    ensures Cut(a + ([c] + b), c) == Some((a, b))
  {
    var s := a + ([c] + b);
    IndexOfConcat(a, c, b);
    assert s[..|a|] == a && s[|a| + 1..] == b;
  }

  /** The rest of `s` after `pre` when `s` starts with `pre`, `None` otherwise. */
  function DropPrefix(s: string, pre: string): (r: Option<string>)
    ensures r.Some? <==> |pre| <= |s| && s[..|pre|] == pre
    ensures r.Some? ==> s == pre + r.value
  {
    if |pre| <= |s| && s[..|pre|] == pre then
      assert s == s[..|pre|] + s[|pre|..];
      Some(s[|pre|..])
    else None
  }

  lemma DropPrefixConcat(pre: string, rest: string)
    ensures DropPrefix(pre + rest, pre) == Some(rest)
  {
    assert (pre + rest)[..|pre|] == pre && (pre + rest)[|pre|..] == rest;
  }

  /** `sep.join(xs)` */
  function Join(xs: seq<string>, sep: string): string
  {
    if |xs| == 0 then ""
    else if |xs| == 1 then xs[0]
    else xs[0] + sep + Join(xs[1..], sep)
  }

  /** `s.split(sep)` for a one-character separator: one more piece than there
      are separators, none of them containing the separator, and joining the
      pieces gives back `s`. */
  function Split(s: string, sep: char): (r: seq<string>)
    ensures |r| >= 1
    ensures forall k :: 0 <= k < |r| ==> sep !in r[k]
    ensures Join(r, [sep]) == s
    decreases |s|
  {
    var i := IndexOf(s, sep);
    if i == |s| then
      assert s[..i] == s;
      [s]
    else
      var rest := Split(s[i + 1..], sep);
      assert s == s[..i] + [sep] + s[i + 1..];
      [s[..i]] + rest
  }

  /** Splitting a joined list gives the list back when no item holds the separator. */
  lemma {:induction false} SplitJoin(xs: seq<string>, sep: char)
    requires |xs| >= 1
    requires forall k :: 0 <= k < |xs| ==> sep !in xs[k]
    ensures Split(Join(xs, [sep]), sep) == xs
    decreases |xs|
  {
    var s := Join(xs, [sep]);
    var i := IndexOf(s, sep);
    if |xs| == 1 {
      assert i == |s|;
    } else {
      assert s == xs[0] + [sep] + Join(xs[1..], [sep]);
      assert s[|xs[0]|] == sep;
      assert s[..|xs[0]|] == xs[0];
      assert i == |xs[0]|;
      assert s[i + 1..] == Join(xs[1..], [sep]);
      SplitJoin(xs[1..], sep);
    }
  }

  // ---------------------------------------------------------------------------
  // Character replacement

  /** `s.replace(c, t)` for a one-character pattern `c`. */
  function ReplaceChar(s: string, c: char, t: string): (r: string)
    ensures c !in t ==> c !in r
    ensures |t| == 1 ==> |r| == |s|
  {
    if s == [] then []
    else (if s[0] == c then t else [s[0]]) + ReplaceChar(s[1..], c, t)
  }

  /** With a one-character replacement the result agrees with `s` position by position. */
  lemma {:induction false} ReplaceCharAt(s: string, c: char, d: char, k: nat)
    requires k < |s|
    ensures |ReplaceChar(s, c, [d])| == |s|
    ensures ReplaceChar(s, c, [d])[k] == if s[k] == c then d else s[k]
  {
    if k > 0 {
      ReplaceCharAt(s[1..], c, d, k - 1);
    }
  }

  lemma {:induction false} ReplaceCharAppend(a: string, b: string, c: char, t: string)
    ensures ReplaceChar(a + b, c, t) == ReplaceChar(a, c, t) + ReplaceChar(b, c, t)
    decreases |a|
  {
    if a == [] {
      assert a + b == b;
    } else {
      assert (a + b)[1..] == a[1..] + b;
      ReplaceCharAppend(a[1..], b, c, t);
    }
  }

  /** With a one-character replacement every position is replaced or kept. */
  lemma ReplaceCharEach(s: string, c: char, d: char)
    ensures |ReplaceChar(s, c, [d])| == |s|
    ensures forall k :: 0 <= k < |s| ==> ReplaceChar(s, c, [d])[k] == if s[k] == c then d else s[k]
  {
    forall k | 0 <= k < |s|
      ensures ReplaceChar(s, c, [d])[k] == if s[k] == c then d else s[k]
    {
      ReplaceCharAt(s, c, d, k);
    }
  }

  /** A string without `c` is left unchanged by replacing `c`. */
  lemma {:induction false} ReplaceCharAbsent(s: string, c: char, t: string)
    requires c !in s
    ensures ReplaceChar(s, c, t) == s
    decreases |s|
  {
    if s != [] {
      ReplaceCharAbsent(s[1..], c, t);
    }
  }

  // ---------------------------------------------------------------------------
  // Decimal integers (`str(n)` and `f"{n}"`)

  function DigitChar(d: nat): char
    requires d < 10
  {
    "0123456789"[d]
  }

  function DigitValue(c: char): nat
    requires IsDigit(c)
  {
    (c - '0') as nat
  }

  /** The decimal digits of `n`, without leading zeros. */
  function DecimalString(n: nat): (r: string)
    ensures |r| >= 1 && AllSatisfy(r, IsDigit)
    ensures |r| > 1 ==> r[0] != '0'
  {
    if n < 10 then [DigitChar(n)] else DecimalString(n / 10) + [DigitChar(n % 10)]
  }

  /** The value of a string of decimal digits. */
  function DigitsValue(s: string): nat
    requires AllSatisfy(s, IsDigit)
  {
    if s == [] then 0 else DigitsValue(s[..|s| - 1]) * 10 + DigitValue(s[|s| - 1])
  }

  /** `str(i)` for a Python `int`. */
  function IntToString(i: int): (r: string)
    ensures r != []
  {
    if i < 0 then "-" + DecimalString(-i) else DecimalString(i)
  }

  /** `int(s)` restricted to an optional minus sign followed by digits. */
  function ParseInt(s: string): (r: Option<int>)
    ensures r.Some? ==> s != []
  {
    if |s| >= 2 && s[0] == '-' && AllSatisfy(s[1..], IsDigit) then Some(-(DigitsValue(s[1..]) as int))
    else if |s| >= 1 && AllSatisfy(s, IsDigit) then Some(DigitsValue(s))
    else None
  }

  lemma {:induction false} DecimalRoundTrip(n: nat)
    ensures DigitsValue(DecimalString(n)) == n
  {
    var s := DecimalString(n);
    if n >= 10 {
      DecimalRoundTrip(n / 10);
      assert s[..|s| - 1] == DecimalString(n / 10);
      assert DigitValue(s[|s| - 1]) == n % 10;
    } else {
      assert s[..|s| - 1] == [];
      assert DigitValue(s[0]) == n;
    }
  }

  lemma NonNegativeRoundTrip(n: nat)
    ensures ParseInt(DecimalString(n)) == Some(n)
  {
    var s := DecimalString(n);
    assert !(|s| >= 2 && s[0] == '-');
    DecimalRoundTrip(n);
  }

  lemma NegativeRoundTrip(n: nat)
    ensures ParseInt("-" + DecimalString(n)) == Some(-(n as int))
  {
    var d := DecimalString(n);
    var s := "-" + d;
    assert s[1..] == d;
    DecimalRoundTrip(n);
  }

  /** Formatting an integer and reading it back gives the same integer. */
  lemma IntRoundTrip(i: int)
    ensures ParseInt(IntToString(i)) == Some(i)
  {
    if i < 0 {
      var n: nat := -i;
      NegativeRoundTrip(n);
      assert IntToString(i) == "-" + DecimalString(n);
    } else {
      NonNegativeRoundTrip(i);
      assert IntToString(i) == DecimalString(i);
    }
  }

  // ---------------------------------------------------------------------------
  // De-duplication in first-seen order (`dict.fromkeys(xs)`)

  predicate Distinct<T(==)>(xs: seq<T>) {
    forall i, j :: 0 <= i < j < |xs| ==> xs[i] != xs[j]
  }

  function DedupSeen(xs: seq<string>, seen: set<string>): (r: seq<string>)
    ensures Distinct(r)
    ensures forall x :: x in r <==> x in xs && x !in seen
  {
    if xs == [] then []
    else if xs[0] in seen then DedupSeen(xs[1..], seen)
    else [xs[0]] + DedupSeen(xs[1..], seen + {xs[0]})
  }

  /** `list(dict.fromkeys(xs))`: every element once, at its first occurrence. */
  function Dedup(xs: seq<string>): (r: seq<string>)
    ensures Distinct(r)
    ensures forall x :: x in r <==> x in xs
    ensures xs != [] ==> r != [] && r[0] == xs[0]
  {
    DedupSeen(xs, {})
  }

  /** Adding an element at the end adds it to the de-duplicated list exactly
      when it was neither seen nor already present: every element keeps the
      place of its first occurrence. */
  lemma {:induction false} DedupSeenSnoc(xs: seq<string>, x: string, seen: set<string>)
    ensures DedupSeen(xs + [x], seen) == DedupSeen(xs, seen) + (if x in xs || x in seen then [] else [x])
    decreases |xs|
  {
    if xs == [] {
      assert [x][1..] == [];
    } else {
      assert (xs + [x])[0] == xs[0] && (xs + [x])[1..] == xs[1..] + [x];
      if xs[0] in seen {
        DedupSeenSnoc(xs[1..], x, seen);
        assert x in xs <==> x == xs[0] || x in xs[1..];
      } else {
        DedupSeenSnoc(xs[1..], x, seen + {xs[0]});
        assert x in xs <==> x == xs[0] || x in xs[1..];
      }
    }
  }

  /** `list(dict.fromkeys(xs))` built one element at a time: nothing from
      no elements, and a new element is appended after the earlier ones. */
  lemma DedupSnoc(xs: seq<string>, x: string)
    ensures Dedup([]) == []
    ensures Dedup(xs + [x]) == Dedup(xs) + (if x in xs then [] else [x])
  {
    DedupSeenSnoc(xs, x, {});
  }

  /** The elements of `xs` that are not in `s`, in order. */
  function Without(xs: seq<string>, s: set<string>): (r: seq<string>)
    ensures forall x :: x in r <==> x in xs && x !in s
  {
    if xs == [] then []
    else if xs[0] in s then Without(xs[1..], s)
    else [xs[0]] + Without(xs[1..], s)
  }

  /** On a list without repetitions de-duplication only removes what was seen. */
  lemma {:induction false} DedupSeenDistinct(xs: seq<string>, seen: set<string>)
    requires Distinct(xs)
    ensures DedupSeen(xs, seen) == Without(xs, seen)
    decreases |xs|
  {
    if xs != [] {
      assert Distinct(xs[1..]);
      assert xs[0] !in xs[1..];
      DedupSeenDistinct(xs[1..], seen);
      if xs[0] !in seen {
        DedupSeenDistinct(xs[1..], seen + {xs[0]});
        WithoutIgnoresAbsent(xs[1..], seen, xs[0]);
      }
    }
  }

  lemma {:induction false} WithoutNone(a: seq<string>, s: set<string>)
    requires forall x :: x in a ==> x !in s
    ensures Without(a, s) == a
    decreases |a|
  {
    if a != [] {
      WithoutNone(a[1..], s);
    }
  }

  lemma {:induction false} WithoutIgnoresAbsent(xs: seq<string>, s: set<string>, x: string)
    requires x !in xs
    ensures Without(xs, s + {x}) == Without(xs, s)
    decreases |xs|
  {
    if xs != [] {
      WithoutIgnoresAbsent(xs[1..], s, x);
    }
  }

  // ---------------------------------------------------------------------------
  // Line-oriented `key = value` files

  /** The dictionary filled by a loop over `lines` that records each parsed
      pair, a later key overwriting an earlier one. */
  function CollectPairs(lines: seq<string>, parse: string -> Option<(string, string)>): map<string, string>
  {
    CollectPairsUpTo(lines, |lines|, parse)
  }

  /** The dictionary after the first `n` lines. */
  function CollectPairsUpTo(lines: seq<string>, n: nat, parse: string -> Option<(string, string)>): map<string, string>
    requires n <= |lines|
  {
    if n == 0 then map[]
    else
      var m := CollectPairsUpTo(lines, n - 1, parse);
      match parse(lines[n - 1])
      case None => m
      case Some(kv) => m[kv.0 := kv.1]
  }

  /** A key is recorded exactly when one of the first `n` lines parses to it. */
  lemma {:induction false} CollectPairsUpToKeys(lines: seq<string>, n: nat, parse: string -> Option<(string, string)>, key: string)
    requires n <= |lines|
    ensures key in CollectPairsUpTo(lines, n, parse) <==>
            exists i :: 0 <= i < n && parse(lines[i]).Some? && parse(lines[i]).value.0 == key
  {
    if n > 0 {
      CollectPairsUpToKeys(lines, n - 1, parse, key);
    }
  }

  /** A key is recorded exactly when some line parses to it. */
  lemma CollectPairsKeys(lines: seq<string>, parse: string -> Option<(string, string)>, key: string)
    ensures key in CollectPairs(lines, parse) <==>
            exists i :: 0 <= i < |lines| && parse(lines[i]).Some? && parse(lines[i]).value.0 == key
  {
    CollectPairsUpToKeys(lines, |lines|, parse, key);
  }

  lemma {:induction false} CollectPairsUpToLastWins(lines: seq<string>, n: nat, parse: string -> Option<(string, string)>, i: nat)
    requires i < n <= |lines| && parse(lines[i]).Some?
    requires forall j :: i < j < n && parse(lines[j]).Some? ==> parse(lines[j]).value.0 != parse(lines[i]).value.0
    ensures parse(lines[i]).value.0 in CollectPairsUpTo(lines, n, parse)
    ensures CollectPairsUpTo(lines, n, parse)[parse(lines[i]).value.0] == parse(lines[i]).value.1
  {
    if i < n - 1 {
      CollectPairsUpToLastWins(lines, n - 1, parse, i);
    }
  }

  /** The value recorded for a key comes from the LAST line that parses to it. */
  lemma CollectPairsLastWins(lines: seq<string>, parse: string -> Option<(string, string)>, i: nat)
    requires i < |lines| && parse(lines[i]).Some?
    requires forall j :: i < j < |lines| && parse(lines[j]).Some? ==> parse(lines[j]).value.0 != parse(lines[i]).value.0
    ensures parse(lines[i]).value.0 in CollectPairs(lines, parse)
    ensures CollectPairs(lines, parse)[parse(lines[i]).value.0] == parse(lines[i]).value.1
  {
    CollectPairsUpToLastWins(lines, |lines|, parse, i);
  }

  /** The loop both tfvars readers run: every line that `parse` accepts is
      recorded into the dictionary, a later line overwriting an earlier one. */
  method ReadAssignments(lines: seq<string>, parse: string -> Option<(string, string)>) returns (values: map<string, string>)
    ensures values == CollectPairs(lines, parse)
  {
    values := map[];
    var i := 0;
    while i < |lines|
      invariant 0 <= i <= |lines|
      invariant values == CollectPairsUpTo(lines, i, parse)
    {
      match parse(lines[i]) {
        case Some((key, value)) => values := values[key := value];
        case None =>
      }
      i := i + 1;
    }
  }

  // ---------------------------------------------------------------------------
  // Missing parameters

  /** The names whose value is falsy, in the order of the fields. */
  function MissingAmong(fields: seq<(string, Option<string>)>): (r: seq<string>)
    ensures |r| <= |fields|
    ensures forall x :: x in r <==> exists f :: f in fields && f.0 == x && !Truthy(f.1)
  {
    if fields == [] then []
    else
      var rest := MissingAmong(fields[1..]);
      assert forall f :: f in fields <==> f == fields[0] || f in fields[1..];
      if Truthy(fields[0].1) then rest else [fields[0].0] + rest
  }

  /** Reporting keeps the order of the fields: the names missing from a
      first group of fields come before those missing from the next. */
  lemma {:induction false} MissingAmongConcat(a: seq<(string, Option<string>)>, b: seq<(string, Option<string>)>)
    ensures MissingAmong(a + b) == MissingAmong(a) + MissingAmong(b)
  {
    if a != [] {
      assert (a + b)[0] == a[0] && (a + b)[1..] == a[1..] + b;
      MissingAmongConcat(a[1..], b);
    } else {
      assert a + b == b;
    }
  }
}
