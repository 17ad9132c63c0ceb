/**
 * The tick period the service loop reads from `run.conf` when it starts
 * (`Execute` in service.go). The configuration text is searched for the
 * first match of the regular expression `timer\s?=\s?\d+`; the match is
 * split on `=`, its right-hand side trimmed and parsed by `strconv.Atoi`,
 * and the value becomes a `time.Duration` of that many seconds. Without a
 * match, or when `Atoi` fails, the period stays 5 seconds and the loop
 * never dispatches a pass.
 *
 * The regular expression is matched by hand; `IsTimerText` is the language
 * it denotes, stated apart from the matcher.
 */
module TimerConfig {
  import opened Wrappers
  import GoStrings

  /** Go regexp's `\s`: tab, newline, form feed, carriage return and space. */
  predicate IsRegexSpace(c: char) {
    c == '\t' || c == '\n' || c == '\U{000C}' || c == '\r' || c == ' '
  }

  /** Go regexp's `\d`: an ASCII digit. */
  predicate IsDigit(c: char) {
    '0' <= c <= '9'
  }

  predicate AllDigits(s: string) {
    forall j :: 0 <= j < |s| ==> IsDigit(s[j])
  }

  /** `w[i..]` is one or more digits. */
  predicate DigitsFrom(w: string, i: nat) {
    i < |w| && forall j :: i <= j < |w| ==> IsDigit(w[j])
  }

  /** `\s?\d+` matches all of `w[i..]`. */
  predicate ValueFrom(w: string, i: nat) {
    DigitsFrom(w, i) || (i < |w| && IsRegexSpace(w[i]) && DigitsFrom(w, i + 1))
  }

  /** The word `timer` starts at position `p` of `s`. */
  predicate KeywordAt(s: string, p: nat) {
    p + 5 <= |s| && s[p] == 't' && s[p + 1] == 'i' && s[p + 2] == 'm' && s[p + 3] == 'e' && s[p + 4] == 'r'
  }

  /** The strings the whole pattern `timer\s?=\s?\d+` matches. */
  predicate IsTimerText(w: string) {
    KeywordAt(w, 0) &&
    ((5 < |w| && w[5] == '=' && ValueFrom(w, 6)) ||
     (6 < |w| && IsRegexSpace(w[5]) && w[6] == '=' && ValueFrom(w, 7)))
  }

  /** Where a match was found: the `t` of `timer`, the `=`, the first digit, and the end. */
  datatype Match = Match(start: nat, equals: nat, digits: nat, end: nat)

  /** `\s?` at `i`: one position further when a white-space character is there. */
  function SkipOptSpace(s: string, i: nat): (j: nat)
    requires i <= |s|
    ensures j == i || (j == i + 1 && i < |s| && IsRegexSpace(s[i]))
    ensures j == i ==> i == |s| || !IsRegexSpace(s[i])
  {
    if i < |s| && IsRegexSpace(s[i]) then i + 1 else i
  }

  /** `\d+` taken greedily from `i`: the end of the run of digits starting there. */
  function DigitsEnd(s: string, i: nat): (e: nat)
    requires i <= |s|
    ensures i <= e <= |s| && (e == |s| || !IsDigit(s[e]))
    decreases |s| - i
  {
    if i < |s| && IsDigit(s[i]) then DigitsEnd(s, i + 1) else i
  }

  /** Everything from `i` up to `DigitsEnd(s, i)` is a digit. */
  lemma {:induction false} DigitsEndSpans(s: string, i: nat)
    requires i <= |s|
    ensures forall j :: i <= j < DigitsEnd(s, i) ==> IsDigit(s[j])
    decreases |s| - i
  {
    if i < |s| && IsDigit(s[i]) {
      DigitsEndSpans(s, i + 1);
    }
  }

  /** A run of digits from `d` to `q` lies inside the greedy digit run from `d`. */
  lemma {:induction false} DigitsEndCovers(s: string, d: nat, q: nat)
    requires d <= q <= |s| && forall j :: d <= j < q ==> IsDigit(s[j])
    ensures q <= DigitsEnd(s, d)
    decreases q - d
  {
    if d < q {
      DigitsEndCovers(s, d + 1, q);
    }
  }

  /** The match of the pattern that starts at `p`, as Go's leftmost-first engine takes it. */
  function MatchAt(s: string, p: nat): (r: Option<Match>)
    requires p <= |s|
    ensures r.Some? ==> r.value.start == p && p + 5 <= r.value.equals < r.value.digits < r.value.end <= |s|
    ensures r.Some? ==> KeywordAt(s, p) && s[r.value.equals] == '='
  {
    if KeywordAt(s, p) then
      var q := SkipOptSpace(s, p + 5);
      if q < |s| && s[q] == '=' then
        var d := SkipOptSpace(s, q + 1);
        var e := DigitsEnd(s, d);
        if d < e then Some(Match(p, q, d, e)) else None
      else None
    else None
  }

  /** The first match that starts at `p` or later. */
  function FindFrom(s: string, p: nat): (r: Option<Match>)
    requires p <= |s|
    ensures r.Some? ==> p <= r.value.start <= |s| && MatchAt(s, r.value.start) == r
    decreases |s| - p
  {
    if MatchAt(s, p).Some? then MatchAt(s, p)
    else if p < |s| then FindFrom(s, p + 1)
    else None
  }

  /** The search from `p` stops at the first position where the matcher succeeds, and fails only when it succeeds nowhere. */
  lemma {:induction false} FindFromIsFirst(s: string, p: nat)
    requires p <= |s|
    ensures FindFrom(s, p).Some? ==> forall a :: p <= a < FindFrom(s, p).value.start ==> MatchAt(s, a).None?
    ensures FindFrom(s, p).None? ==> forall a :: p <= a <= |s| ==> MatchAt(s, a).None?
    decreases |s| - p
  {
    if MatchAt(s, p).None? && p < |s| {
      FindFromIsFirst(s, p + 1);
    }
  }

  /** Go's `regexp.Find` for `timer\s?=\s?\d+`. */
  function Find(s: string): Option<Match>
  {
    FindFrom(s, 0)
  }

  /** What the matcher reports at `p` is in the pattern's language. */
  lemma MatchAtSound(s: string, p: nat)
    requires p <= |s| && MatchAt(s, p).Some?
    ensures IsTimerText(s[p..MatchAt(s, p).value.end])
  {
    var m := MatchAt(s, p).value;
    DigitsEndSpans(s, m.digits);
    var w := s[p..m.end];
    assert KeywordAt(w, 0);
    assert DigitsFrom(w, m.digits - p);
  }

  /** When `\s?\d+` matches `s[v..q]`, the matcher's value part from `v` reaches at least `q`. */
  lemma ValueCovered(s: string, p: nat, v: nat, q: nat)
    requires p <= v <= q <= |s| && ValueFrom(s[p..q], v - p)
    ensures SkipOptSpace(s, v) < q <= DigitsEnd(s, SkipOptSpace(s, v))
  {
    var w := s[p..q];
    assert s[v] == w[v - p];
    var d := if DigitsFrom(w, v - p) then v else v + 1;
    assert DigitsFrom(w, d - p);
    forall j | d <= j < q
      ensures IsDigit(s[j])
    {
      assert s[j] == w[j - p];
    }
    DigitsEndCovers(s, d, q);
  }

  /** Any stretch of the text at `p` in the pattern's language is found by the matcher at `p`, and is no longer than its match. */
  lemma MatchAtComplete(s: string, p: nat, q: nat)
    requires p <= q <= |s| && IsTimerText(s[p..q])
    ensures MatchAt(s, p).Some? && q <= MatchAt(s, p).value.end
  {
    var w := s[p..q];
    assert KeywordAt(s, p);
    var eq := if w[5] == '=' then p + 5 else p + 6;
    assert s[p + 5] == w[5] && s[eq] == w[eq - p];
    assert SkipOptSpace(s, p + 5) == eq;
    ValueCovered(s, p, eq + 1, q);
  }

  /** A match at `a` is found by `FindFrom` from any `p <= a`, at `a` or before. */
  lemma {:induction false} FindFromReaches(s: string, p: nat, a: nat)
    requires p <= a <= |s| && MatchAt(s, a).Some?
    ensures FindFrom(s, p).Some? && FindFrom(s, p).value.start <= a
    decreases a - p
  {
    if p < a && MatchAt(s, p).None? {
      FindFromReaches(s, p + 1, a);
    }
  }

  /**
   * `Find` reports a match exactly when the text holds the pattern, and
   * then the leftmost occurrence, taken as long as it goes.
   */
  lemma FindIsLeftmostLongest(s: string)
    ensures Find(s).None? <==> forall a, b :: 0 <= a <= b <= |s| ==> !IsTimerText(s[a..b])
    ensures Find(s).Some? ==>
      var m := Find(s).value;
      IsTimerText(s[m.start..m.end]) &&
      (forall a, b :: 0 <= a < m.start && a <= b <= |s| ==> !IsTimerText(s[a..b])) &&
      (forall b :: m.end < b <= |s| ==> !IsTimerText(s[m.start..b]))
  {
    forall a, b | 0 <= a <= b <= |s| && IsTimerText(s[a..b])
      ensures Find(s).Some? && Find(s).value.start <= a
    {
      MatchAtComplete(s, a, b);
      FindFromReaches(s, 0, a);
    }
    if Find(s).Some? {
      var m := Find(s).value;
      MatchAtSound(s, m.start);
      forall b | m.end < b <= |s| && IsTimerText(s[m.start..b])
        ensures false
      {
        MatchAtComplete(s, m.start, b);
      }
    }
  }

  /** A match split on `=` gives the keyword side and the value side. */
  lemma MatchSplits(s: string, p: nat)
    requires p <= |s| && MatchAt(s, p).Some?
    ensures var m := MatchAt(s, p).value;
      GoStrings.Split(s[m.start..m.end], '=') == [s[m.start..m.equals], s[m.equals + 1..m.end]]
  {
    var m := MatchAt(s, p).value;
    DigitsEndSpans(s, m.digits);
    var w := s[m.start..m.end];
    var k := m.equals - m.start;
    GoStrings.SplitAtOnlySeparator(w, '=', k);
    assert w[..k] == s[m.start..m.equals] && w[k + 1..] == s[m.equals + 1..m.end];
  }

  /** Trimming the value side of a match leaves exactly its digits. */
  lemma MatchValueTrims(s: string, p: nat)
    requires p <= |s| && MatchAt(s, p).Some?
    ensures var m := MatchAt(s, p).value;
      GoStrings.TrimSpace(s[m.equals + 1..m.end]) == s[m.digits..m.end]
  {
    var m := MatchAt(s, p).value;
    DigitsEndSpans(s, m.digits);
    var pad := s[m.equals + 1..m.digits];
    var ds := s[m.digits..m.end];
    assert s[m.equals + 1..m.end] == pad + ds;
    GoStrings.TrimSpaceDropsPadding(pad, ds);
  }

  /** The value of a decimal digit. */
  function DigitValue(c: char): int
  {
    c as int - '0' as int
  }

  /** The number a string of decimal digits denotes. */
  function Decimal(s: string): int
  {
    if s == [] then 0 else 10 * Decimal(s[..|s| - 1]) + DigitValue(s[|s| - 1])
  }

  const MaxInt64 := 0x7fff_ffff_ffff_ffff
  const MinInt64 := -0x8000_0000_0000_0000
  const MaxUint64 := 0xffff_ffff_ffff_ffff

  /** The errors `strconv.Atoi` reports. */
  datatype NumError = ErrSyntax | ErrRange

  /**
   * Go's `strconv.Atoi` for a 64-bit `int`: an optional sign, then one or
   * more decimal digits whose value fits in 64 bits. The digits are read
   * from the left, and reading stops with a range error as soon as the
   * value read so far passes the largest unsigned 64-bit number, before a
   * later character that is not a digit is looked at.
   */
  function Atoi(s: string): (r: Result<int, NumError>)
    ensures r.Ok? ==> MinInt64 <= r.value <= MaxInt64
    ensures s == [] ==> r == Err(ErrSyntax)
  {
    var body := if s != [] && (s[0] == '+' || s[0] == '-') then s[1..] else s;
    match ParseUnsigned(body)
    case Err(e) => Err(e)
    case Ok(n) =>
      var v := if s[0] == '-' then -n else n;
      if MinInt64 <= v <= MaxInt64 then Ok(v) else Err(ErrRange)
  }

  /**
   * The unsigned part of `Atoi`: one or more digits, read from the left;
   * a value past the largest unsigned 64-bit number is a range error as
   * soon as it is read, before a later character that is not a digit.
   */
  function ParseUnsigned(body: string): (r: Result<int, NumError>)
    ensures r.Ok? ==> 0 <= r.value <= MaxUint64
    ensures body == [] ==> r == Err(ErrSyntax)
  {
    if body == [] then Err(ErrSyntax)
    else
      var k := DigitsEnd(body, 0);
      DigitsEndSpans(body, 0);
      assert AllDigits(body[..k]);
      DecimalNonNegative(body[..k]);
      var n := Decimal(body[..k]);
      if n > MaxUint64 then Err(ErrRange)
      else if k < |body| then Err(ErrSyntax)
      else Ok(n)
  }

  /** On digits only, `Atoi` yields their value exactly when it fits and a range error otherwise. */
  lemma AtoiOfDigits(s: string)
    requires s != [] && AllDigits(s)
    ensures Atoi(s) == if Decimal(s) <= MaxInt64 then Ok(Decimal(s)) else Err(ErrRange)
  {
    DigitsEndCovers(s, 0, |s|);
    assert s[..|s|] == s;
    DecimalNonNegative(s);
  }

  /** Digits worth more than 64 unsigned bits give a range error, whatever follows them. */
  lemma AtoiRangeBeforeSyntax(d: string, rest: string)
    requires d != [] && AllDigits(d) && Decimal(d) > MaxUint64
    requires rest != [] && !IsDigit(rest[0])
    ensures Atoi(d + rest) == Err(ErrRange)
  {
    var s := d + rest;
    assert s[0] == d[0] && s[|d|] == rest[0];
    DigitsEndCovers(s, 0, |d|);
    DigitsEndSpans(s, 0);
    assert DigitsEnd(s, 0) == |d|;
    assert s[..|d|] == d;
  }

  /** Digits denote a number that is not negative. */
  lemma {:induction false} DecimalNonNegative(s: string)
    requires AllDigits(s)
    ensures Decimal(s) >= 0
  {
    if s != [] {
      DecimalNonNegative(s[..|s| - 1]);
    }
  }

  /** A product computed in Go's `int64`: the mathematical value wrapped into 64 bits. */
  function WrapInt64(x: int): (r: int)
    ensures MinInt64 <= r <= MaxInt64
    ensures (x - r) % 0x1_0000_0000_0000_0000 == 0
  {
    (x - MinInt64) % 0x1_0000_0000_0000_0000 + MinInt64
  }

  /** `time.Second`, in nanoseconds. */
  const Second := 1_000_000_000

  /** The main ticker's period in nanoseconds, and whether ticks may dispatch passes. */
  datatype TimerSetting = TimerSetting(period: int, proceed: bool)

  /** The setting when the configuration gives no usable timer: 5 seconds, no dispatching. */
  const DefaultSetting := TimerSetting(5 * Second, false)

  /** The setting that `Atoi`'s verdict on the matched value gives. */
  function SettingOf(parsed: Result<int, NumError>): TimerSetting
  {
    match parsed
    case Err(_) => DefaultSetting
    case Ok(v) => TimerSetting(WrapInt64(v * Second), true)
  }

  /** The setting the configuration text `text` gives. */
  function SettingFrom(text: string): TimerSetting
  {
    match Find(text)
    case None => DefaultSetting
    case Some(m) => SettingOf(Atoi(MatchedValue(text, m.start)))
  }

  /** The value side of the match at `p`: the match split on `=`, second part, trimmed. */
  function MatchedValue(text: string, p: nat): string
    requires p <= |text| && MatchAt(text, p).Some?
  {
    var m := MatchAt(text, p).value;
    MatchSplits(text, p);
    var kv := GoStrings.Split(text[m.start..m.end], '=');
    GoStrings.TrimSpace(kv[1])
  }

  /** The timer part of `Execute`: the default when `run.conf` could not be located or read. */
  function ParseTimer(conf: Option<string>): TimerSetting
  {
    match conf
    case None => DefaultSetting
    case Some(text) => SettingFrom(text)
  }

  /** The number the first match's digits denote. */
  function MatchedSeconds(text: string, m: Match): int
    requires m.digits <= m.end <= |text|
  {
    Decimal(text[m.digits..m.end])
  }

  /**
   * Dispatching is switched on exactly when the text holds the pattern and
   * the digits of its first occurrence denote at most `MaxInt64`; the
   * period is then that many seconds, computed in 64 bits. Otherwise the
   * 5-second default stays.
   */
  lemma SettingFromSpec(text: string)
    ensures SettingFrom(text).proceed <==>
      Find(text).Some? && MatchedSeconds(text, Find(text).value) <= MaxInt64
    ensures !SettingFrom(text).proceed ==> SettingFrom(text) == DefaultSetting
    ensures SettingFrom(text).proceed ==>
      SettingFrom(text).period == WrapInt64(MatchedSeconds(text, Find(text).value) * Second)
  {
    if Find(text).Some? {
      var m := Find(text).value;
      MatchedValueIsDigits(text, m.start);
      DigitsEndSpans(text, m.digits);
      AtoiOfDigits(text[m.digits..m.end]);
    }
  }

  /** The value `Atoi` is given is exactly the match's digits. */
  lemma MatchedValueIsDigits(text: string, p: nat)
    requires p <= |text| && MatchAt(text, p).Some?
    ensures var m := MatchAt(text, p).value; MatchedValue(text, p) == text[m.digits..m.end]
  {
    MatchSplits(text, p);
    MatchValueTrims(text, p);
  }

  /** Up to `MaxInt64 / Second` (9223372036) seconds the period is exact and not negative. */
  lemma PeriodExactUpTo(v: int)
    requires 0 <= v <= MaxInt64 / Second
    ensures WrapInt64(v * Second) == v * Second >= 0
  {
  }

  /** One second past that, `Duration * Second` overflows to a negative duration. */
  lemma PeriodWrapsPastLimit()
    ensures WrapInt64((MaxInt64 / Second + 1) * Second) < 0
  {
  }
}
