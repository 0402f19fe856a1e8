/** The text `useCountUp` returns: the animated number, already fixed to its
    decimals, with a separator between groups of three integer digits, framed
    by a prefix and a suffix. The grouping is the regular-expression
    replacement `integer.replace(/\B(?=(\d{3})+(?!\d))/g, separator)`,
    modelled position by position, and related to a reference grouping that
    cuts the digits into threes from the right. */
module CountUp {
  import opened Common
  import opened Decimal

  // ---------------------------------------------------------------------
  // The regular expression, position by position

  /** `\w`: ASCII letters, digits and the underscore. */
  predicate IsWordChar(c: char) {
    ('a' <= c <= 'z') || ('A' <= c <= 'Z') || IsDigit(c) || c == '_'
  }

  /** `\B` at position `p` (between `s[p-1]` and `s[p]`): both sides are word
      characters or neither is; outside the string counts as non-word. */
  predicate NotBoundary(s: string, p: nat)
    requires p <= |s|
  {
    (p > 0 && IsWordChar(s[p - 1])) == (p < |s| && IsWordChar(s[p]))
  }

  /** The length of the run of digits that starts at `p`. */
  function DigitRun(s: string, p: nat): (n: nat)
    requires p <= |s|
    ensures p + n <= |s|
    ensures p + n == |s| || !IsDigit(s[p + n])
    decreases |s| - p
  {
    if p < |s| && IsDigit(s[p]) then 1 + DigitRun(s, p + 1) else 0
  }

  /** The run is made of digits. */
  lemma {:induction false} DigitRunDigits(s: string, p: nat)
    requires p <= |s|
    ensures forall i :: p <= i < p + DigitRun(s, p) ==> IsDigit(s[i])
    decreases |s| - p
  {
    if p < |s| && IsDigit(s[p]) {
      DigitRunDigits(s, p + 1);
    }
  }

  /** `(\d{3})+(?!\d)` matching at `p` with `k` groups: `3k` digits, then no
      digit. */
  predicate LookaheadWith(s: string, p: nat, k: nat)
    requires p <= |s|
  {
    && k >= 1 && p + 3 * k <= |s|
    && (forall i :: p <= i < p + 3 * k ==> IsDigit(s[i]))
    && (p + 3 * k == |s| || !IsDigit(s[p + 3 * k]))
  }

  /** The lookahead succeeds at `p` exactly when the digit run from `p` is a
      non-empty multiple of three long, and then with one group count only. */
  lemma LookaheadIsRun(s: string, p: nat, k: nat)
    requires p <= |s|
    ensures LookaheadWith(s, p, k) <==> DigitRun(s, p) > 0 && DigitRun(s, p) == 3 * k
  {
    DigitRunDigits(s, p);
  }

  /** Where the global replacement inserts the separator: `\B` holds and the
      lookahead succeeds. */
  predicate MatchAt(s: string, p: nat)
    requires p <= |s|
  {
    NotBoundary(s, p) && DigitRun(s, p) > 0 && DigitRun(s, p) % 3 == 0
  }

  /** The replacement applied to the first `k` characters: each position
      below `k` gets the separator in front of its character when the
      expression matches there. */
  function Build(s: string, sep: string, k: nat): string
    requires k <= |s|
    decreases k
  {
    if k == 0 then ""
    else Build(s, sep, k - 1) + (if MatchAt(s, k - 1) then sep else "") + [s[k - 1]]
  }

  /** `s.replace(/\B(?=(\d{3})+(?!\d))/g, sep)`, with `sep` inserted literally. */
  function InsertSeparators(s: string, sep: string): string {
    Build(s, sep, |s|) + (if MatchAt(s, |s|) then sep else "")
  }

  // ---------------------------------------------------------------------
  // The reference grouping

  /** The digits cut into threes from the right; the first group takes what
      is left over. */
  function Chunks(d: string): (cs: seq<string>)
    ensures |cs| >= 1
    decreases |d|
  {
    if |d| <= 3 then [d] else Chunks(d[..|d| - 3]) + [d[|d| - 3..]]
  }

  function Concat(cs: seq<string>): string
    decreases |cs|
  {
    if cs == [] then "" else Concat(cs[..|cs| - 1]) + cs[|cs| - 1]
  }

  function Join(cs: seq<string>, sep: string): string
    requires |cs| >= 1
    decreases |cs|
  {
    if |cs| == 1 then cs[0] else Join(cs[..|cs| - 1], sep) + sep + cs[|cs| - 1]
  }

  /** Reference grouping of a digit string. */
  function Group(d: string, sep: string): string {
    Join(Chunks(d), sep)
  }

  /** Grouping peels the last three digits off a longer string. */
  lemma GroupStep(d: string, sep: string)
    requires |d| > 3
    ensures Group(d, sep) == Group(d[..|d| - 3], sep) + sep + d[|d| - 3..]
  {
    var cs := Chunks(d);
    assert cs[..|cs| - 1] == Chunks(d[..|d| - 3]);
  }

  /** The groups spell the digits; the first has one to three of them (when
      there are any), every later one exactly three; at most three digits make
      one group, hence no separator. */
  lemma {:induction false} ChunksShape(d: string)
    ensures Concat(Chunks(d)) == d
    ensures |d| >= 1 ==> 1 <= |Chunks(d)[0]| <= 3
    ensures forall i :: 1 <= i < |Chunks(d)| ==> |Chunks(d)[i]| == 3
    ensures |Chunks(d)| == 1 <==> |d| <= 3
    ensures |Chunks(d)| == (|d| + 2) / 3 || (|d| == 0 && |Chunks(d)| == 1)
    decreases |d|
  {
    if |d| > 3 {
      var p := d[..|d| - 3];
      ChunksShape(p);
      var cs := Chunks(d);
      assert cs[..|cs| - 1] == Chunks(p);
      assert d == p + d[|d| - 3..];
    }
  }

  /** Keeps the digits of a string, dropping everything else. */
  function DigitsOf(s: string): (r: string)
    ensures AllDigits(r)
    decreases |s|
  {
    if s == [] then "" else DigitsOf(s[..|s| - 1]) + (if IsDigit(s[|s| - 1]) then [s[|s| - 1]] else "")
  }

  lemma {:induction false} DigitsOfAppend(a: string, b: string)
    ensures DigitsOf(a + b) == DigitsOf(a) + DigitsOf(b)
    decreases |b|
  {
    if b != [] {
      var b' := b[..|b| - 1];
      assert (a + b)[..|a + b| - 1] == a + b';
      assert (a + b)[|a + b| - 1] == b[|b| - 1];
      DigitsOfAppend(a, b');
      var tail := if IsDigit(b[|b| - 1]) then [b[|b| - 1]] else "";
      assert DigitsOf(b) == DigitsOf(b') + tail;
      assert DigitsOf(a + b) == DigitsOf(a + b') + tail;
      assert (DigitsOf(a) + DigitsOf(b')) + tail == DigitsOf(a) + (DigitsOf(b') + tail);
    } else {
      assert a + b == a;
    }
  }

  lemma {:induction false} DigitsOfDigits(d: string)
    requires AllDigits(d)
    ensures DigitsOf(d) == d
    decreases |d|
  {
    if d != [] {
      DigitsOfDigits(d[..|d| - 1]);
    }
  }

  /** Deleting a separator that holds no digit from the grouped text gives
      back the digits. */
  lemma {:induction false} GroupStrips(d: string, sep: string)
    requires AllDigits(d)
    requires DigitsOf(sep) == ""
    ensures DigitsOf(Group(d, sep)) == d
    decreases |d|
  {
    if |d| <= 3 {
      GroupShort(d, sep);
      DigitsOfDigits(d);
    } else {
      var p := d[..|d| - 3];
      var t := d[|d| - 3..];
      assert AllDigits(p) && AllDigits(t) by {
        assert forall i :: 0 <= i < |p| ==> p[i] == d[i];
        assert forall i :: 0 <= i < |t| ==> t[i] == d[|d| - 3 + i];
      }
      assert d == p + t;
      GroupStrips(p, sep);
      GroupStripsStep(p, t, sep);
    }
  }

  /** The inductive step of `GroupStrips`. */
  lemma GroupStripsStep(p: string, t: string, sep: string)
    requires |p| > 0 && |t| == 3 && AllDigits(t)
    requires DigitsOf(sep) == ""
    requires DigitsOf(Group(p, sep)) == p
    ensures DigitsOf(Group(p + t, sep)) == p + t
  {
    GroupAppend(p, t, sep);
    StripSeparator(Group(p, sep), sep, t);
  }

  /** `GroupStep` seen from the two halves. */
  lemma GroupAppend(p: string, t: string, sep: string)
    requires |p| > 0 && |t| == 3
    ensures Group(p + t, sep) == Group(p, sep) + sep + t
  {
    var d := p + t;
    GroupStep(d, sep);
    assert d[..|d| - 3] == p;
    assert d[|d| - 3..] == t;
  }

  lemma GroupShort(d: string, sep: string)
    requires |d| <= 3
    ensures Group(d, sep) == d
  {
  }

  /** A digit-free separator and a run of digits appended to a text add just
      those digits to what the text keeps. */
  lemma StripSeparator(g: string, sep: string, t: string)
    requires AllDigits(t)
    requires DigitsOf(sep) == ""
    ensures DigitsOf(g + sep + t) == DigitsOf(g) + t
  {
    DigitsOfAppend(g, sep);
    DigitsOfAppend(g + sep, t);
    DigitsOfDigits(t);
    assert DigitsOf(g) + DigitsOf(sep) == DigitsOf(g);
  }

  // ---------------------------------------------------------------------
  // The replacement agrees with the reference

  /** On a string of digits the expression matches exactly at the inner
      positions a multiple of three from the end. */
  lemma MatchInDigits(s: string, p: nat)
    requires AllDigits(s) && p <= |s|
    ensures MatchAt(s, p) <==> 0 < p < |s| && (|s| - p) % 3 == 0
  {
    RunToEnd(s, p);
  }

  lemma {:induction false} RunToEnd(s: string, p: nat)
    requires AllDigits(s) && p <= |s|
    ensures DigitRun(s, p) == |s| - p
    decreases |s| - p
  {
    if p < |s| {
      RunToEnd(s, p + 1);
    }
  }

  /** Up to any position a multiple of three from the end, the replacement
      has produced the reference grouping of the digits so far. */
  lemma {:induction false} BuildIsGroup(s: string, sep: string, k: nat)
    requires AllDigits(s)
    requires 0 < k <= |s| && (|s| - k) % 3 == 0
    ensures Build(s, sep, k) == Group(s[..k], sep)
    decreases k
  {
    var d := s[..k];
    if k <= 3 {
      BuildPlain(s, sep, k);
    } else {
      BuildIsGroup(s, sep, k - 3);
      BuildThree(s, sep, k);
      GroupStep(d, sep);
      assert d[..|d| - 3] == s[..k - 3];
      assert d[|d| - 3..] == s[k - 3..k];
    }
  }

  /** Three more digits after a match position: the separator, then the
      digits. */
  lemma BuildThree(s: string, sep: string, k: nat)
    requires AllDigits(s)
    requires 3 < k <= |s| && (|s| - k) % 3 == 0
    ensures Build(s, sep, k) == Build(s, sep, k - 3) + sep + s[k - 3..k]
  {
    var q := (|s| - k) / 3;
    assert |s| - (k - 3) == 3 * (q + 1);
    assert |s| - (k - 2) == 3 * q + 2;
    assert |s| - (k - 1) == 3 * q + 1;
    MatchInDigits(s, k - 3);
    MatchInDigits(s, k - 2);
    MatchInDigits(s, k - 1);
    var b := Build(s, sep, k - 3);
    BuildNext(s, sep, k - 2);
    BuildNext(s, sep, k - 1);
    BuildNext(s, sep, k);
    assert s[k - 3..k] == [s[k - 3]] + [s[k - 2]] + [s[k - 1]];
  }

  /** One more character: the separator in front of it when the expression
      matches there. */
  lemma BuildNext(s: string, sep: string, k: nat)
    requires 0 < k <= |s|
    ensures MatchAt(s, k - 1) ==> Build(s, sep, k) == Build(s, sep, k - 1) + sep + [s[k - 1]]
    ensures !MatchAt(s, k - 1) ==> Build(s, sep, k) == Build(s, sep, k - 1) + [s[k - 1]]
  {
  }

  /** Below three characters past a match-free stretch, nothing is inserted. */
  lemma {:induction false} BuildPlain(s: string, sep: string, k: nat)
    requires AllDigits(s)
    requires 0 < k <= |s| && k <= 3 && (|s| - k) % 3 == 0
    ensures Build(s, sep, k) == s[..k]
  {
    var j := 0;
    while j < k
      invariant 0 <= j <= k
      invariant Build(s, sep, j) == s[..j]
    {
      MatchInDigits(s, j);
      assert s[..j + 1] == s[..j] + [s[j]];
      j := j + 1;
    }
  }

  /** On a non-empty string of digits the replacement IS the reference
      grouping. */
  lemma InsertIsGroup(d: string, sep: string)
    requires AllDigits(d) && |d| >= 1
    ensures InsertSeparators(d, sep) == Group(d, sep)
  {
    BuildIsGroup(d, sep, |d|);
    MatchInDigits(d, |d|);
    assert d[..|d|] == d;
  }

  // ---------------------------------------------------------------------
  // formatNumber and the hook's result

  /** `fixed.split('.')` destructured into its first two parts: the text
      before the first dot, and the text between it and the next dot (or
      the end), when there is a first dot. */
  function SplitDot(s: string): (r: (string, Option<string>))
    ensures '.' !in r.0
    ensures r.1.None? <==> '.' !in s
    ensures r.1.None? ==> r.0 == s
    ensures r.1.Some? ==> '.' !in r.1.value && r.0 + "." + r.1.value <= s
    ensures r.1.Some? ==> |r.0 + "." + r.1.value| == |s| || s[|r.0 + "." + r.1.value|] == '.'
  {
    var integer := UpToDot(s);
    if |integer| == |s| then
      assert integer == s;
      (s, None)
    else
      var rest := s[|integer| + 1..];
      var decimal := UpToDot(rest);
      assert s == integer + "." + rest;
      assert |decimal| < |rest| ==> s[|integer| + 1 + |decimal|] == rest[|decimal|];
      (integer, Some(decimal))
  }

  /** The text before the first dot. */
  function UpToDot(s: string): (r: string)
    ensures '.' !in r && r <= s
    ensures |r| == |s| || s[|r|] == '.'
    decreases |s|
  {
    if s == [] || s[0] == '.' then "" else [s[0]] + UpToDot(s[1..])
  }

  /** `formatNumber` from the fixed text onward: group the integer part; keep
      a non-empty decimal part after a dot. */
  function FormatFixed(fixed: string, sep: string): (r: string)
    ensures var (integer, decimal) := SplitDot(fixed);
            var grouped := InsertSeparators(integer, sep);
            && (decimal.Some? && decimal.value != "" ==> r == grouped + "." + decimal.value)
            && (!(decimal.Some? && decimal.value != "") ==> r == grouped)
  {
    var (integer, decimal) := SplitDot(fixed);
    var grouped := InsertSeparators(integer, sep);
    if decimal.Some? && decimal.value != "" then grouped + "." + decimal.value else grouped
  }

  /** What `toFixed` produces for a non-negative number: digits, and when
      decimals were asked for, a dot and more digits. The integer part is
      grouped and the decimal part kept as it is. */
  lemma FormatUnsigned(d: string, f: string, sep: string)
    requires AllDigits(d) && |d| >= 1 && AllDigits(f)
    ensures f == "" ==> FormatFixed(d, sep) == Group(d, sep)
    ensures f != "" ==> FormatFixed(d + "." + f, sep) == Group(d, sep) + "." + f
  {
    InsertIsGroup(d, sep);
    NoDotInDigits(d);
    NoDotInDigits(f);
    if f != "" {
      SplitDigitsDot(d, f);
    }
  }

  lemma NoDotInDigits(d: string)
    requires AllDigits(d)
    ensures '.' !in d
  {
  }

  lemma SplitDigitsDot(d: string, f: string)
    requires '.' !in d && '.' !in f
    ensures SplitDot(d + "." + f) == (d, Some(f))
  {
    var s := d + "." + f;
    UpToDotStops(d, f);
    assert s[|d| + 1..] == f;
    UpToDotNoDot(f);
  }

  lemma {:induction false} UpToDotStops(d: string, rest: string)
    requires '.' !in d
    ensures UpToDot(d + "." + rest) == d
    decreases |d|
  {
    if d != [] {
      assert (d + "." + rest)[1..] == d[1..] + "." + rest;
      UpToDotStops(d[1..], rest);
      assert [d[0]] + d[1..] == d;
    }
  }

  lemma {:induction false} UpToDotNoDot(f: string)
    requires '.' !in f
    ensures UpToDot(f) == f
    decreases |f|
  {
    if f != [] {
      UpToDotNoDot(f[1..]);
      assert [f[0]] + f[1..] == f;
    }
  }

  /** A negative number's text: the minus sign is left alone, since `\B`
      fails between it and the first digit, and the digits group as usual. */
  lemma SignedGroups(d: string, sep: string)
    requires AllDigits(d) && |d| >= 1
    ensures InsertSeparators("-" + d, sep) == "-" + Group(d, sep)
  {
    ShiftBuild(d, sep, |d|);
    ShiftMatch(d, |d|);
    InsertIsGroup(d, sep);
  }

  lemma ShiftMatch(d: string, p: nat)
    requires AllDigits(d) && |d| >= 1 && p <= |d|
    ensures MatchAt("-" + d, p + 1) == MatchAt(d, p)
  {
    ShiftRun(d, p);
    var s := "-" + d;
    assert s[p] == if p == 0 then '-' else d[p - 1];
    if p < |d| {
      assert s[p + 1] == d[p];
    }
  }

  lemma {:induction false} ShiftRun(d: string, p: nat)
    requires p <= |d|
    ensures DigitRun("-" + d, p + 1) == DigitRun(d, p)
    decreases |d| - p
  {
    var s := "-" + d;
    if p < |d| {
      assert s[p + 1] == d[p];
      ShiftRun(d, p + 1);
    }
  }

  lemma {:induction false} ShiftBuild(d: string, sep: string, k: nat)
    requires AllDigits(d) && |d| >= 1 && k <= |d|
    ensures Build("-" + d, sep, k + 1) == "-" + Build(d, sep, k)
    decreases k
  {
    var s := "-" + d;
    if k == 0 {
      assert s[0] == '-';
      assert !MatchAt(s, 0);
      assert Build(s, sep, 1) == [s[0]];
    } else {
      ShiftBuild(d, sep, k - 1);
      ShiftMatch(d, k - 1);
      var gap := if MatchAt(d, k - 1) then sep else "";
      assert s[k] == d[k - 1];
      assert Build(s, sep, k + 1) == Build(s, sep, k) + gap + [s[k]];
      assert Build(d, sep, k) == Build(d, sep, k - 1) + gap + [d[k - 1]];
      assert ("-" + Build(d, sep, k - 1)) + gap + [d[k - 1]] == "-" + (Build(d, sep, k - 1) + gap + [d[k - 1]]);
    }
  }

  /** The hook's result: prefix, formatted number, suffix. */
  function CountUpText(prefix: string, fixed: string, sep: string, suffix: string): (r: string)
    ensures |r| == |prefix| + |FormatFixed(fixed, sep)| + |suffix|
    ensures prefix <= r
    ensures r[|prefix|..|r| - |suffix|] == FormatFixed(fixed, sep)
    ensures r[|r| - |suffix|..] == suffix
  {
    prefix + FormatFixed(fixed, sep) + suffix
  }

  /** The digits of the rendered text are exactly the number's digits when
      the prefix, the separator and the suffix hold none: grouping adds and
      drops no digit. */
  lemma CountUpDigits(prefix: string, d: string, sep: string, suffix: string)
    requires AllDigits(d) && |d| >= 1
    requires DigitsOf(prefix) == "" && DigitsOf(sep) == "" && DigitsOf(suffix) == ""
    ensures DigitsOf(CountUpText(prefix, d, sep, suffix)) == d
  {
    var g := Group(d, sep);
    FormatUnsigned(d, "", sep);
    assert FormatFixed(d, sep) == g;
    GroupStrips(d, sep);
    DigitsOfAppend(prefix, g);
    DigitsOfAppend(prefix + g, suffix);
    assert DigitsOf(prefix + g) == d;
  }

  /** The default call: no prefix or suffix, a comma separator, no decimals,
      on 1234567 — `1,234,567`. */
  lemma DefaultExample()
    ensures CountUpText("", "1234567", ",", "") == "1,234,567"
  {
    FormatUnsigned("1234567", "", ",");
    GroupExample();
    assert "" + "1,234,567" + "" == "1,234,567";
  }

  lemma GroupExample()
    ensures Group("1234567", ",") == "1,234,567"
  {
    assert "1234567"[..4] == "1234" && "1234567"[4..] == "567";
    assert "1234"[..1] == "1" && "1234"[1..] == "234";
    var cs := Chunks("1234567");
    assert Chunks("1234") == ["1", "234"];
    assert cs == ["1", "234", "567"];
    assert cs[..2] == ["1", "234"];
    assert Join(["1", "234"], ",") == "1,234";
  }
}
