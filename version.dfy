/** Parsing and formatting of interpreter version banners: `parsePythonVersion`
    in src/install.js and the `major.minor.patch` text that `findPython` reports.

    The source matches `/Python (\d+)\.(\d+)\.(\d+)/` against the output of
    `<cmd> --version` and converts the three groups with `parseInt`.  Here the
    regular expression is modelled twice: operationally (MatchAt scans the
    greedy digit runs, LeftmostMatch tries start positions from the left), and
    declaratively (RegexMatch says which substrings the pattern can match);
    the lemmas tie the two together. */
module Version {
  import opened Wrappers

  /** The literal text in front of the first digit group. */
  const PREFIX: string := "Python "

  datatype PythonVersion = PythonVersion(major: nat, minor: nat, patch: nat)

  // ---------------------------------------------------------------------
  // Decimal digits

  /** `\d` without the `u` flag: the ASCII digits only. */
  predicate IsDigit(c: char) {
    '0' <= c <= '9'
  }

  predicate AllDigits(s: string) {
    forall k :: 0 <= k < |s| ==> IsDigit(s[k])
  }

  /** The character of `s` at `j` is a digit. */
  predicate DigitAt(s: string, j: nat)
    requires j < |s|
  {
    IsDigit(s[j])
  }

  /** The characters of `s` from `lo` up to `hi` are all digits. */
  predicate DigitsIn(s: string, lo: nat, hi: nat)
    requires lo <= hi <= |s|
  {
    forall j :: lo <= j < hi ==> DigitAt(s, j)
  }

  /** A stretch of digits, cut out of its text, is a string of digits. */
  lemma DigitsInSlice(s: string, lo: nat, hi: nat)
    requires lo <= hi <= |s| && DigitsIn(s, lo, hi)
    ensures AllDigits(s[lo..hi])
  {
    forall k | 0 <= k < hi - lo
      ensures IsDigit(s[lo..hi][k])
    {
      assert DigitAt(s, lo + k);
    }
  }

  /** A decimal numeral as `String(n)` prints a natural: non-empty, and no
      leading zero unless the numeral is "0". */
  predicate Canonical(s: string) {
    |s| > 0 && AllDigits(s) && (|s| > 1 ==> s[0] != '0')
  }

  function DigitValue(c: char): (d: nat)
    requires IsDigit(c)
    ensures d < 10
  {
    (c as int) - ('0' as int)
  }

  function DigitChar(d: nat): (c: char)
    requires d < 10
    ensures IsDigit(c) && DigitValue(c) == d
  {
    (('0' as int) + d) as char
  }

  /** `parseInt` of a string of digits, read left to right. */
  function Decimal(s: string): nat
    requires AllDigits(s)
    decreases |s|
  {
    if s == [] then 0 else Decimal(s[..|s| - 1]) * 10 + DigitValue(s[|s| - 1])
  }

  /** The decimal numeral of `n`, as a template literal `${n}` prints it. */
  function NatToString(n: nat): (s: string)
    ensures Canonical(s)
    ensures s[0] == '0' <==> n == 0
    decreases n
  {
    if n < 10 then [DigitChar(n)] else NatToString(n / 10) + [DigitChar(n % 10)]
  }

  lemma {:induction false} DecimalOfNatToString(n: nat)
    ensures Decimal(NatToString(n)) == n
    decreases n
  {
    if n >= 10 {
      var s := NatToString(n);
      assert s[..|s| - 1] == NatToString(n / 10);
      DecimalOfNatToString(n / 10);
    }
  }

  /** A numeral that starts with a non-zero digit denotes a positive number. */
  lemma {:induction false} DecimalPositive(s: string)
    requires |s| > 0 && AllDigits(s) && s[0] != '0'
    ensures Decimal(s) > 0
    decreases |s|
  {
    if |s| > 1 {
      DecimalPositive(s[..|s| - 1]);
    }
  }

  /** Reading a canonical numeral and printing the number back gives the
      same text: NatToString and Decimal are inverse on canonical numerals. */
  lemma {:induction false} NatToStringOfDecimal(s: string)
    requires Canonical(s)
    ensures NatToString(Decimal(s)) == s
    decreases |s|
  {
    if |s| > 1 {
      var init := s[..|s| - 1];
      assert Canonical(init);
      DecimalPositive(init);
      NatToStringOfDecimal(init);
      var n := Decimal(s);
      assert n / 10 == Decimal(init) && n % 10 == DigitValue(s[|s| - 1]);
      assert [DigitChar(n % 10)] == [s[|s| - 1]];
      assert s == init + [s[|s| - 1]];
    }
  }

  // ---------------------------------------------------------------------
  // The regular expression

  /** Length of the maximal run of digits starting at `k`: what a greedy
      `\d+` (or `\d*`) consumes there. */
  function DigitRun(s: string, k: nat): (n: nat)
    requires k <= |s|
    ensures k + n <= |s|
    ensures DigitsIn(s, k, k + n)
    ensures k + n == |s| || !DigitAt(s, k + n)
    decreases |s| - k
  {
    if k < |s| && DigitAt(s, k) then 1 + DigitRun(s, k + 1) else 0
  }

  /** Any run of digits at `k` is covered by the maximal one. */
  lemma DigitRunCovers(s: string, k: nat, n: nat)
    requires k + n <= |s| && DigitsIn(s, k, k + n)
    ensures DigitRun(s, k) >= n
  {
  }

  /** A run of digits followed by a non-digit (or the end) is the maximal one. */
  lemma DigitRunIs(s: string, k: nat, n: nat)
    requires k + n <= |s| && DigitsIn(s, k, k + n)
    requires k + n == |s| || !DigitAt(s, k + n)
    ensures DigitRun(s, k) == n
  {
    DigitRunCovers(s, k, n);
  }

  /** `(\d+)\.(\d+)\.(\d+)` matches the substring of `s` that starts at
      `p`, with groups of lengths `a`, `b` and `c`. */
  ghost predicate GroupsAt(s: string, p: nat, a: nat, b: nat, c: nat) {
    var q := p + a + 1;
    var r := q + b + 1;
    && r + c <= |s|
    && 1 <= a && 1 <= b && 1 <= c
    && DigitsIn(s, p, p + a) && s[p + a] == '.'
    && DigitsIn(s, q, q + b) && s[q + b] == '.'
    && DigitsIn(s, r, r + c)
  }

  /** The groups a backtracking engine reports at `p`: the last group, having
      nothing after it in the pattern, is as long as it can be. */
  ghost predicate GreedyGroupsAt(s: string, p: nat, a: nat, b: nat, c: nat) {
    var end := p + a + 1 + b + 1 + c;
    GroupsAt(s, p, a, b, c) && (end == |s| || !DigitAt(s, end))
  }

  /** The pattern `Python (\d+)\.(\d+)\.(\d+)` matches the substring of `s`
      that starts at `i`, with groups of lengths `a`, `b` and `c`. */
  ghost predicate RegexMatch(s: string, i: nat, a: nat, b: nat, c: nat) {
    var p := i + |PREFIX|;
    p <= |s| && s[i..p] == PREFIX && GroupsAt(s, p, a, b, c)
  }

  /** The match a backtracking engine reports at `i`. */
  ghost predicate GreedyMatch(s: string, i: nat, a: nat, b: nat, c: nat) {
    RegexMatch(s, i, a, b, c) && GreedyGroupsAt(s, i + |PREFIX|, a, b, c)
  }

  /** The three groups of a match, each converted with `parseInt`. */
  function Captured(s: string, i: nat, a: nat, b: nat, c: nat): PythonVersion
    requires RegexMatch(s, i, a, b, c)
  {
    var p := i + |PREFIX|;
    var q := p + a + 1;
    var r := q + b + 1;
    DigitsInSlice(s, p, p + a);
    DigitsInSlice(s, q, q + b);
    DigitsInSlice(s, r, r + c);
    PythonVersion(Decimal(s[p..p + a]), Decimal(s[q..q + b]), Decimal(s[r..r + c]))
  }

  /** `(\d+)\.` at `k`: the length of the greedy digit run, provided it is
      non-empty and a dot follows it. */
  function DottedRun(s: string, k: nat): (r: Option<nat>)
    requires k <= |s|
    ensures r.Some? ==> 1 <= r.value && k + r.value < |s| && s[k + r.value] == '.'
    ensures r.Some? ==> DigitsIn(s, k, k + r.value)
  {
    var n := DigitRun(s, k);
    if n > 0 && k + n < |s| && s[k + n] == '.' then Some(n) else None
  }

  /** The lengths of the digit groups a scan found, or the verdict that the
      pattern does not match there. */
  datatype Spans = NoMatch | Spans(major: nat, minor: nat, patch: nat)

  /** `(\d+)\.(\d+)` at `q`, the last group greedy: the lengths of the two
      groups (in `minor` and `patch`), when both are non-empty. */
  function TailGroups(s: string, q: nat): (r: Spans)
    requires q <= |s|
    ensures r.Spans? ==> 1 <= r.minor && q + r.minor < |s| && s[q + r.minor] == '.'
    ensures r.Spans? ==> DigitsIn(s, q, q + r.minor)
    ensures r.Spans? ==> r.patch == DigitRun(s, q + r.minor + 1) >= 1
  {
    match DottedRun(s, q)
    case None => NoMatch
    case Some(b) =>
      var c := DigitRun(s, q + b + 1);
      if c == 0 then NoMatch else Spans(0, b, c)
  }

  /** `(\d+)\.(\d+)\.(\d+)` at `p`, the last group greedy. */
  function Groups(s: string, p: nat): (r: Spans)
    requires p <= |s|
    ensures r.Spans? ==> GreedyGroupsAt(s, p, r.major, r.minor, r.patch)
  {
    match DottedRun(s, p)
    case None => NoMatch
    case Some(a) =>
      var tail := TailGroups(s, p + a + 1);
      if tail.NoMatch? then NoMatch else tail.(major := a)
  }

  /** The lengths of the three groups when the pattern matches at `i`, as a
      backtracking engine finds them. */
  function GroupLengths(s: string, i: nat): (r: Spans)
    ensures r.Spans? ==> GreedyMatch(s, i, r.major, r.minor, r.patch)
  {
    var p := i + |PREFIX|;
    if p > |s| || s[i..p] != PREFIX then NoMatch else Groups(s, p)
  }

  /** The regular expression anchored at position `i`, with its groups
      converted. */
  function MatchAt(s: string, i: nat): (r: Option<PythonVersion>)
  {
    var g := GroupLengths(s, i);
    if g.NoMatch? then None else Some(Captured(s, i, g.major, g.minor, g.patch))
  }

  /** What MatchAt finds is a match of the pattern, and the greedy one. */
  lemma MatchAtSound(s: string, i: nat)
    requires MatchAt(s, i).Some?
    ensures exists a: nat, b: nat, c: nat :: GreedyMatch(s, i, a, b, c) && MatchAt(s, i) == Some(Captured(s, i, a, b, c))
  {
    var g := GroupLengths(s, i);
    assert GreedyMatch(s, i, g.major, g.minor, g.patch);
  }

  /** A non-empty stretch of digits followed by a dot is what `(\d+)\.`
      finds there. */
  lemma DottedRunIs(s: string, k: nat, n: nat)
    requires 1 <= n && k + n < |s| && DigitsIn(s, k, k + n) && s[k + n] == '.'
    ensures DottedRun(s, k) == Some(n)
  {
    DigitRunIs(s, k, n);
  }

  /** Where `(\d+)\.(\d+)` can match at `q`, the scan finds the first group
      and a second group that covers the matched one. */
  lemma TailGroupsComplete(s: string, q: nat, b: nat, c: nat)
    requires 1 <= b && 1 <= c && q + b + 1 + c <= |s|
    requires DigitsIn(s, q, q + b) && s[q + b] == '.' && DigitsIn(s, q + b + 1, q + b + 1 + c)
    ensures TailGroups(s, q) == Spans(0, b, DigitRun(s, q + b + 1))
    ensures DigitRun(s, q + b + 1) >= c
  {
    DottedRunIs(s, q, b);
    DigitRunCovers(s, q + b + 1, c);
  }

  /** Where `(\d+)\.(\d+)\.(\d+)` can match at `p`, the scan finds the
      first two groups and a last group that covers the matched one. */
  lemma GroupsComplete(s: string, p: nat, a: nat, b: nat, c: nat)
    requires GroupsAt(s, p, a, b, c)
    ensures Groups(s, p) == Spans(a, b, DigitRun(s, p + a + 1 + b + 1))
    ensures DigitRun(s, p + a + 1 + b + 1) >= c
  {
    DottedRunIs(s, p, a);
    TailGroupsComplete(s, p + a + 1, b, c);
  }

  /** At greedy groups, the scan reports exactly their lengths. */
  lemma GroupsGreedy(s: string, p: nat, a: nat, b: nat, c: nat)
    requires GreedyGroupsAt(s, p, a, b, c)
    ensures Groups(s, p) == Spans(a, b, c)
  {
    var r := p + a + 1 + b + 1;
    assert r + c <= |s| && DigitsIn(s, r, r + c);
    assert r + c == |s| || !DigitAt(s, r + c);
    DigitRunIs(s, r, c);
    GroupsComplete(s, p, a, b, c);
  }

  /** Wherever the pattern matches, the scan finds the first two groups and
      a last group that covers the matched one. */
  lemma GroupLengthsComplete(s: string, i: nat, a: nat, b: nat, c: nat)
    requires RegexMatch(s, i, a, b, c)
    ensures GroupLengths(s, i) == Spans(a, b, DigitRun(s, i + |PREFIX| + a + 1 + b + 1))
    ensures DigitRun(s, i + |PREFIX| + a + 1 + b + 1) >= c
  {
    GroupsComplete(s, i + |PREFIX|, a, b, c);
  }

  /** Wherever the pattern can match, MatchAt finds a match. */
  lemma MatchAtComplete(s: string, i: nat, a: nat, b: nat, c: nat)
    requires RegexMatch(s, i, a, b, c)
    ensures MatchAt(s, i).Some?
  {
    GroupLengthsComplete(s, i, a, b, c);
  }

  /** At a greedy match, the scan reports exactly that match's group
      lengths. */
  lemma GroupLengthsGreedy(s: string, i: nat, a: nat, b: nat, c: nat)
    requires GreedyMatch(s, i, a, b, c)
    ensures GroupLengths(s, i) == Spans(a, b, c)
  {
    GroupsGreedy(s, i + |PREFIX|, a, b, c);
  }

  /** At a greedy match, MatchAt reports exactly that match's groups. */
  lemma MatchAtGreedy(s: string, i: nat, a: nat, b: nat, c: nat)
    requires GreedyMatch(s, i, a, b, c)
    ensures MatchAt(s, i) == Some(Captured(s, i, a, b, c))
  {
    GroupLengthsGreedy(s, i, a, b, c);
  }

  /** The position of the leftmost match at or after `i`: the regular
      expression engine tries start positions from left to right. */
  function LeftmostMatch(s: string, i: nat): (r: Option<nat>)
    requires i <= |s|
    ensures r.Some? ==> i <= r.value <= |s| && MatchAt(s, r.value).Some?
    ensures r.Some? ==> forall j :: i <= j < r.value ==> MatchAt(s, j).None?
    ensures r.None? ==> forall j :: i <= j <= |s| ==> MatchAt(s, j).None?
    decreases |s| - i
  {
    if MatchAt(s, i).Some? then Some(i)
    else if i == |s| then None
    else LeftmostMatch(s, i + 1)
  }

  /** `parsePythonVersion`: `null` for an absent or empty output, or one the
      pattern does not match; otherwise the groups of the leftmost match. */
  function Parse(versionStr: Option<string>): (r: Option<PythonVersion>)
    ensures versionStr == None || versionStr == Some("") ==> r == None
  {
    match versionStr
    case None => None
    case Some(s) =>
      if s == "" then None
      else
        match LeftmostMatch(s, 0)
        case None => None
        case Some(i) => MatchAt(s, i)
  }

  /** Parse finds a match exactly when the pattern occurs in the text. */
  lemma ParseNoneIffNoMatch(s: string)
    ensures Parse(Some(s)).None? <==> forall i: nat, a: nat, b: nat, c: nat :: !RegexMatch(s, i, a, b, c)
  {
    if Parse(Some(s)).Some? {
      var i := LeftmostMatch(s, 0).value;
      MatchAtSound(s, i);
    } else {
      forall i: nat, a: nat, b: nat, c: nat | RegexMatch(s, i, a, b, c)
        ensures false
      {
        MatchAtComplete(s, i, a, b, c);
      }
    }
  }

  /** When the leftmost occurrence of the pattern starts at `i`, Parse reports
      the three maximal digit runs of that occurrence. */
  lemma ParseIsLeftmostGreedyMatch(s: string, i: nat, a: nat, b: nat, c: nat)
    requires GreedyMatch(s, i, a, b, c)
    requires forall j: nat, a': nat, b': nat, c': nat :: j < i ==> !RegexMatch(s, j, a', b', c')
    ensures Parse(Some(s)) == Some(Captured(s, i, a, b, c))
  {
    MatchAtGreedy(s, i, a, b, c);
    assert s != "" && i <= |s|;
    var m := LeftmostMatch(s, 0);
    assert m.Some? && m.value <= i;
    MatchAtSound(s, m.value);
    assert m.value == i;
  }

  // ---------------------------------------------------------------------
  // Formatting

  /** The text `${major}.${minor}.${patch}` that `findPython` reports. */
  function FormatVersion(v: PythonVersion): string {
    NatToString(v.major) + "." + NatToString(v.minor) + "." + NatToString(v.patch)
  }

  /** A banner built from three digit strings is a greedy match at 0 whose
      groups are exactly those strings. */
  lemma BannerMatches(x: string, y: string, z: string)
    requires |x| > 0 && |y| > 0 && |z| > 0 && AllDigits(x) && AllDigits(y) && AllDigits(z)
    ensures GreedyMatch(PREFIX + x + "." + y + "." + z, 0, |x|, |y|, |z|)
    ensures var s := PREFIX + x + "." + y + "." + z;
            var p := |PREFIX|;
            var q := p + |x| + 1;
            var r := q + |y| + 1;
            s[p..p + |x|] == x && s[q..q + |y|] == y && s[r..r + |z|] == z
  {
    var s := PREFIX + x + "." + y + "." + z;
    var p := |PREFIX|;
    var q := p + |x| + 1;
    var r := q + |y| + 1;
    assert s[0..p] == PREFIX;
    assert s[p..p + |x|] == x;
    assert s[p + |x|] == '.';
    assert s[q..q + |y|] == y;
    assert s[q + |y|] == '.';
    assert s[r..r + |z|] == z;
  }

  /** Round trip: the banner of a version parses back to that version. */
  lemma ParseFormatRoundTrip(v: PythonVersion)
    ensures Parse(Some(PREFIX + FormatVersion(v))) == Some(v)
  {
    var x, y, z := NatToString(v.major), NatToString(v.minor), NatToString(v.patch);
    var s := PREFIX + x + "." + y + "." + z;
    assert PREFIX + FormatVersion(v) == s;
    BannerMatches(x, y, z);
    DecimalOfNatToString(v.major);
    DecimalOfNatToString(v.minor);
    DecimalOfNatToString(v.patch);
    assert Captured(s, 0, |x|, |y|, |z|) == v;
    ParseIsLeftmostGreedyMatch(s, 0, |x|, |y|, |z|);
  }

  /** Distinct versions have distinct reported strings. */
  lemma FormatVersionInjective(v: PythonVersion, w: PythonVersion)
    requires FormatVersion(v) == FormatVersion(w)
    ensures v == w
  {
    ParseFormatRoundTrip(v);
    ParseFormatRoundTrip(w);
  }
}
