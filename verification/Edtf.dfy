/**
  Extended Date/Time Format, Levels 0 and 1 of ISO 8601-2:2019: the earliest and latest day of a date text. An
  independent reading of the texts, `Denotes`, says which real days a text is about; the bounds cover them all.
*/
module Edtf {
  import opened Wrappers
  import Decimal
  import Text

  /** A day of the proleptic Gregorian calendar. */
  datatype Date = Date(year: int, month: int, day: int)

  datatype Precision = Year | Month | Day | Season | Unknown

  datatype Kind = Single | Interval

  datatype Parsed = Parsed(kind: Kind, min: Option<Date>, max: Option<Date>, precision: Precision,
                           uncertain: bool, approximate: bool)

  datatype EdtfError = Empty | Malformed

  datatype Bounds = Bounds(min: Date, max: Date, precision: Precision)

  // ----- the calendar -----

  predicate IsLeap(year: int) {
    (year % 4 == 0 && year % 100 != 0) || year % 400 == 0
  }

  function DaysInMonth(year: int, month: int): int {
    if month in {1, 3, 5, 7, 8, 10, 12} then 31
    else if month == 2 then (if IsLeap(year) then 29 else 28)
    else 30
  }

  predicate Real(d: Date) {
    1 <= d.month <= 12 && 1 <= d.day <= DaysInMonth(d.year, d.month)
  }

  /** Chronological order. */
  predicate NotAfter(a: Date, b: Date) {
    a.year < b.year || (a.year == b.year && (a.month < b.month || (a.month == b.month && a.day <= b.day)))
  }

  // ----- digits and wildcards -----

  predicate IsDigits(s: string) {
    forall i :: 0 <= i < |s| ==> Decimal.IsDigit(s[i]) || s[i] == 'X'
  }

  predicate IsPattern(s: string) {
    s != [] && IsDigits(s)
  }

  function LowDigit(c: char): nat
    requires Decimal.IsDigit(c) || c == 'X'
  {
    if c == 'X' then 0 else Decimal.DigitValue(c)
  }

  function HighDigit(c: char): nat
    requires Decimal.IsDigit(c) || c == 'X'
  {
    if c == 'X' then 9 else Decimal.DigitValue(c)
  }

  function Low(s: string): nat
    requires IsDigits(s)
  {
    if s == [] then 0 else 10 * Low(s[..|s| - 1]) + LowDigit(s[|s| - 1])
  }

  function High(s: string): nat
    requires IsDigits(s)
  {
    if s == [] then 0 else 10 * High(s[..|s| - 1]) + HighDigit(s[|s| - 1])
  }

  datatype Range = Range(lo: nat, hi: nat)

  function DigitsRange(s: string): Option<Range> {
    if IsPattern(s) then Some(Range(Low(s), High(s))) else None
  }

  method ParseDigitsRange(s: string) returns (r: Option<Range>)
    ensures r == DigitsRange(s)
  {
    if s == [] { return None; }
    for i := 0 to |s|
      invariant forall j :: 0 <= j < i ==> Decimal.IsDigit(s[j]) || s[j] == 'X'
    {
      if !(Decimal.IsDigit(s[i]) || s[i] == 'X') { return None; }
    }
    var lo, hi := 0, 0;
    for i := 0 to |s|
      invariant lo == Low(s[..i]) && hi == High(s[..i])
    {
      assert s[..i + 1][..i] == s[..i];
      lo := lo * 10;
      hi := hi * 10;
      if s[i] == 'X' {
        hi := hi + 9;
      } else {
        var d := Decimal.DigitValue(s[i]);
        lo := lo + d;
        hi := hi + d;
      }
    }
    assert s[..|s|] == s;
    return Some(Range(lo, hi));
  }

  /** The number, written with as many digits as the pattern has, agrees with it wherever it is not an X. */
  predicate Matches(pattern: string, n: nat) {
    if pattern == [] then n == 0
    else
      var c := pattern[|pattern| - 1];
      (c == 'X' || (Decimal.IsDigit(c) && Decimal.DigitValue(c) == n % 10)) && Matches(pattern[..|pattern| - 1], n / 10)
  }

  lemma LastDigit(higher: nat, d: nat)
    requires d < 10
    ensures (10 * higher + d) % 10 == d && (10 * higher + d) / 10 == higher
  {
  }

  lemma {:induction false} LowMatches(pattern: string)
    requires IsDigits(pattern)
    ensures Matches(pattern, Low(pattern))
  {
    if pattern != [] {
      var front, c := pattern[..|pattern| - 1], pattern[|pattern| - 1];
      LowMatches(front);
      LastDigit(Low(front), LowDigit(c));
    }
  }

  lemma {:induction false} HighMatches(pattern: string)
    requires IsDigits(pattern)
    ensures Matches(pattern, High(pattern))
  {
    if pattern != [] {
      var front, c := pattern[..|pattern| - 1], pattern[|pattern| - 1];
      HighMatches(front);
      LastDigit(High(front), HighDigit(c));
    }
  }

  lemma {:induction false} MatchesLiesBetween(pattern: string, n: nat)
    requires IsDigits(pattern) && Matches(pattern, n)
    ensures Low(pattern) <= n <= High(pattern)
  {
    if pattern != [] {
      MatchesLiesBetween(pattern[..|pattern| - 1], n / 10);
      assert n == 10 * (n / 10) + n % 10;
    }
  }

  /** The bounds of a pattern match it themselves, and every number that matches lies between them. */
  lemma RangeIsTight(pattern: string, n: nat)
    requires IsDigits(pattern)
    ensures Matches(pattern, Low(pattern)) && Matches(pattern, High(pattern))
    ensures Matches(pattern, n) ==> Low(pattern) <= n <= High(pattern)
    ensures Low(pattern) <= High(pattern)
  {
    LowMatches(pattern);
    HighMatches(pattern);
    MatchesLiesBetween(pattern, Low(pattern));
    if Matches(pattern, n) { MatchesLiesBetween(pattern, n); }
  }

  // ----- the parser -----

  function YearRange(neg: bool, digits: Range): (int, int) {
    var lo: int, hi: int := digits.lo, digits.hi;
    if neg then (-hi, -lo) else (lo, hi)
  }

  function SeasonBounds(years: (int, int), code: nat): Bounds {
    var (first, last) := years;
    if code == 21 then Bounds(Date(first, 3, 1), Date(last, 5, 31), Season)
    else if code == 22 then Bounds(Date(first, 6, 1), Date(last, 8, 31), Season)
    else if code == 23 then Bounds(Date(first, 9, 1), Date(last, 11, 30), Season)
    else Bounds(Date(first, 12, 1), Date(last + 1, 2, DaysInMonth(last + 1, 2)), Season)
  }

  predicate IsSeason(r: Range) {
    r.lo == r.hi && 21 <= r.lo <= 24
  }

  function AtLeast(n: int, least: int): int { if n >= least then n else least }

  function AtMost(n: int, most: int): int { if n <= most then n else most }

  /** A component's range cut to 1 through `most`; an exact one must lie there, and a cut one must not be empty. */
  function Clipped(r: Range, most: int): Option<(int, int)> {
    if r.lo == r.hi then (if 1 <= r.lo <= most then Some((r.lo, r.hi)) else None)
    else if AtLeast(r.lo, 1) > AtMost(r.hi, most) then None
    else Some((AtLeast(r.lo, 1), AtMost(r.hi, most)))
  }

  function MonthBounds(years: (int, int), months: (int, int)): Bounds {
    Bounds(Date(years.0, months.0, 1), Date(years.1, months.1, DaysInMonth(years.1, months.1)), Month)
  }

  function DayBounds(years: (int, int), months: (int, int), days: (int, int)): Option<Bounds> {
    if years.0 == years.1 && months.0 == months.1 && days.0 == days.1 && days.0 > DaysInMonth(years.0, months.0) then None
    else
      Some(Bounds(Date(years.0, months.0, AtMost(days.0, DaysInMonth(years.0, months.0))),
                  Date(years.1, months.1, AtMost(days.1, DaysInMonth(years.1, months.1))), Day))
  }

  function Sign(s: string): (bool, string) {
    if s != [] && s[0] == '-' then (true, s[1..]) else (false, s)
  }

  /** A component of exactly `width` digits or Xs. */
  function Component(s: string, width: nat): Option<Range> {
    if |s| == width then DigitsRange(s) else None
  }

  function ParseCore(s: string): Option<Bounds> {
    var (neg, rest) := Sign(s);
    ParseParts(neg, Text.Split(rest, '-'))
  }

  function ParseParts(neg: bool, parts: seq<string>): Option<Bounds>
    requires parts != []
  {
    var digits := Component(parts[0], 4);
    if |parts| > 3 || digits.None? then None
    else
      var years := YearRange(neg, digits.value);
      if |parts| == 1 then Some(Bounds(Date(years.0, 1, 1), Date(years.1, 12, DaysInMonth(years.1, 12)), Year))
      else
        var month := Component(parts[1], 2);
        if month.None? then None
        else if IsSeason(month.value) then
          if |parts| == 2 then Some(SeasonBounds(years, month.value.lo)) else None
        else
          var months := Clipped(month.value, 12);
          if months.None? then None
          else if |parts| == 2 then Some(MonthBounds(years, months.value))
          else
            var day := Component(parts[2], 2);
            if day.None? || Clipped(day.value, 31).None? then None
            else DayBounds(years, months.value, Clipped(day.value, 31).value)
  }

  datatype Qualified = Qualified(bounds: Bounds, uncertain: bool, approximate: bool)

  /** The text without its qualifier, and what the qualifier says. */
  function Unqualified(s: string): (string, bool, bool) {
    if s != [] && s[|s| - 1] == '%' then (s[..|s| - 1], true, true)
    else if s != [] && s[|s| - 1] == '?' then (s[..|s| - 1], true, false)
    else if s != [] && s[|s| - 1] == '~' then (s[..|s| - 1], false, true)
    else (s, false, false)
  }

  function ParseSingle(s: string): Option<Qualified> {
    var (core, uncertain, approximate) := Unqualified(s);
    match ParseCore(core)
    case None => None
    case Some(b) => Some(Qualified(b, uncertain, approximate))
  }

  /** An interval side: nothing bounds an open or unknown one. */
  datatype Side = Open | Closed(date: Qualified)

  predicate IsOpen(side: string) {
    Text.Trim(side) == [] || Text.Trim(side) == ".."
  }

  function ParseSide(side: string): Option<Side> {
    if IsOpen(side) then Some(Open)
    else match ParseSingle(Text.Trim(side))
      case None => None
      case Some(q) => Some(Closed(q))
  }

  function MinOf(side: Side): Option<Date> { if side.Open? then None else Some(side.date.bounds.min) }

  function MaxOf(side: Side): Option<Date> { if side.Open? then None else Some(side.date.bounds.max) }

  function ParseInterval(start: string, end: string): Result<Parsed, EdtfError> {
    var s, e := ParseSide(start), ParseSide(end);
    if s.None? || e.None? then Err(Malformed)
    else
      var a, b := s.value, e.value;
      if a.Closed? && b.Closed? && !NotAfter(a.date.bounds.min, b.date.bounds.max) then Err(Malformed)
      else
        var precision :=
          if a.Closed? then a.date.bounds.precision else if b.Closed? then b.date.bounds.precision else Unknown;
        Ok(Parsed(Interval, MinOf(a), MaxOf(b), precision,
                  (a.Closed? && a.date.uncertain) || (b.Closed? && b.date.uncertain),
                  (a.Closed? && a.date.approximate) || (b.Closed? && b.date.approximate)))
  }

  function Parse(input: string): Result<Parsed, EdtfError> {
    var trimmed := Text.Trim(input);
    var i := Text.Find(trimmed, '/');
    if trimmed == [] then Err(Empty)
    else if i < |trimmed| then
      if '/' in trimmed[i + 1..] then Err(Malformed) else ParseInterval(trimmed[..i], trimmed[i + 1..])
    else match ParseSingle(trimmed)
      case None => Err(Malformed)
      case Some(q) =>
        Ok(Parsed(Single, Some(q.bounds.min), Some(q.bounds.max), q.bounds.precision, q.uncertain, q.approximate))
  }

  // ----- which days a text is about -----

  predicate InYear(neg: bool, pattern: string, year: int) {
    if neg then year <= 0 && Matches(pattern, -year) else year >= 0 && Matches(pattern, year)
  }

  /** Spring, summer, autumn and winter of `year`; winter runs into the next one. */
  predicate InSeason(code: nat, year: int, d: Date) {
    if code == 21 then d.year == year && 3 <= d.month <= 5
    else if code == 22 then d.year == year && 6 <= d.month <= 8
    else if code == 23 then d.year == year && 9 <= d.month <= 11
    else (d.year == year && d.month == 12) || (d.year == year + 1 && d.month <= 2)
  }

  predicate SeasonPart(part: string) {
    DigitsRange(part).Some? && IsSeason(DigitsRange(part).value)
  }

  /** A real day whose digits agree with the parts wherever they are given. */
  ghost predicate PartsDenote(neg: bool, parts: seq<string>, d: Date)
    requires parts != []
  {
    Real(d) &&
    if |parts| == 2 && SeasonPart(parts[1]) then
      exists year :: InYear(neg, parts[0], year) && InSeason(DigitsRange(parts[1]).value.lo, year, d)
    else
      InYear(neg, parts[0], d.year) &&
      (|parts| >= 2 ==> Matches(parts[1], d.month)) &&
      (|parts| >= 3 ==> Matches(parts[2], d.day))
  }

  ghost predicate Denotes(core: string, d: Date) {
    PartsDenote(Sign(core).0, Text.Split(Sign(core).1, '-'), d)
  }

  // ----- the bounds cover them -----

  lemma YearsCover(neg: bool, pattern: string, year: int)
    requires DigitsRange(pattern).Some? && InYear(neg, pattern, year)
    ensures var years := YearRange(neg, DigitsRange(pattern).value); years.0 <= year <= years.1
  {
    RangeIsTight(pattern, if neg then -year else year);
  }

  lemma ComponentCovers(pattern: string, n: int, most: int)
    requires DigitsRange(pattern).Some? && 1 <= n <= most && Matches(pattern, n)
    ensures var r := Clipped(DigitsRange(pattern).value, most); r.Some? && r.value.0 <= n <= r.value.1
  {
    RangeIsTight(pattern, n);
  }

  lemma ClippedIsOrdered(r: Range, most: int)
    requires r.lo <= r.hi && Clipped(r, most).Some?
    ensures 1 <= Clipped(r, most).value.0 <= Clipped(r, most).value.1 <= most
  {
  }

  lemma YearsAreOrdered(neg: bool, pattern: string)
    requires DigitsRange(pattern).Some?
    ensures var years := YearRange(neg, DigitsRange(pattern).value); years.0 <= years.1
  {
    RangeIsTight(pattern, 0);
  }

  /** Every day the parts denote lies within the bounds. */
  lemma PartsCover(neg: bool, parts: seq<string>, d: Date)
    requires parts != [] && ParseParts(neg, parts).Some? && PartsDenote(neg, parts, d)
    ensures var b := ParseParts(neg, parts).value; NotAfter(b.min, d) && NotAfter(d, b.max)
  {
    if |parts| == 2 && IsSeason(DigitsRange(parts[1]).value) {
      var year :| InYear(neg, parts[0], year) && InSeason(DigitsRange(parts[1]).value.lo, year, d);
      YearsCover(neg, parts[0], year);
    } else {
      YearsCover(neg, parts[0], d.year);
      if |parts| >= 2 { ComponentCovers(parts[1], d.month, 12); }
      if |parts| >= 3 { ComponentCovers(parts[2], d.day, 31); }
    }
  }

  /** The bounds of an accepted date are real days in order. */
  lemma BoundsAreReal(neg: bool, parts: seq<string>)
    requires parts != [] && ParseParts(neg, parts).Some?
    ensures var b := ParseParts(neg, parts).value; Real(b.min) && Real(b.max) && NotAfter(b.min, b.max)
  {
    YearsAreOrdered(neg, parts[0]);
    if |parts| >= 2 { RangeIsTight(parts[1], 0); }
    if |parts| >= 3 { RangeIsTight(parts[2], 0); }
    if |parts| >= 2 && !IsSeason(DigitsRange(parts[1]).value) {
      ClippedIsOrdered(DigitsRange(parts[1]).value, 12);
      if |parts| >= 3 { ClippedIsOrdered(DigitsRange(parts[2]).value, 31); }
    }
  }

  // ----- whole texts -----

  ghost predicate SideDenotes(side: string, d: Date) {
    Denotes(Unqualified(Text.Trim(side)).0, d)
  }

  ghost predicate NotBefore(side: string, d: Date) {
    IsOpen(side) || exists x :: SideDenotes(side, x) && NotAfter(x, d)
  }

  ghost predicate NotPast(side: string, d: Date) {
    IsOpen(side) || exists x :: SideDenotes(side, x) && NotAfter(d, x)
  }

  /** The text is about the day: a single date denotes it, or it lies from a day the start denotes to one the end does. */
  ghost predicate About(input: string, d: Date) {
    var trimmed := Text.Trim(input);
    var i := Text.Find(trimmed, '/');
    if i < |trimmed| then NotBefore(trimmed[..i], d) && NotPast(trimmed[i + 1..], d)
    else Denotes(Unqualified(trimmed).0, d)
  }

  lemma CoreCovers(core: string, d: Date)
    requires ParseCore(core).Some? && Denotes(core, d)
    ensures NotAfter(ParseCore(core).value.min, d) && NotAfter(d, ParseCore(core).value.max)
  {
    PartsCover(Sign(core).0, Text.Split(Sign(core).1, '-'), d);
  }

  lemma SideStarts(side: string, d: Date)
    requires ParseSide(side).Some? && NotBefore(side, d)
    ensures ParseSide(side).value.Closed? ==> NotAfter(ParseSide(side).value.date.bounds.min, d)
  {
    if !IsOpen(side) {
      var x :| SideDenotes(side, x) && NotAfter(x, d);
      CoreCovers(Unqualified(Text.Trim(side)).0, x);
    }
  }

  lemma SideEnds(side: string, d: Date)
    requires ParseSide(side).Some? && NotPast(side, d)
    ensures ParseSide(side).value.Closed? ==> NotAfter(d, ParseSide(side).value.date.bounds.max)
  {
    if !IsOpen(side) {
      var x :| SideDenotes(side, x) && NotAfter(d, x);
      CoreCovers(Unqualified(Text.Trim(side)).0, x);
    }
  }

  /** Every day an accepted text is about lies within its bounds: wildcards, years before the common era, seasons, leap
      days, open and closed intervals. */
  lemma BoundsCover(input: string, d: Date)
    requires Parse(input).Ok? && About(input, d)
    ensures Parse(input).value.min.Some? ==> NotAfter(Parse(input).value.min.value, d)
    ensures Parse(input).value.max.Some? ==> NotAfter(d, Parse(input).value.max.value)
  {
    var trimmed := Text.Trim(input);
    var i := Text.Find(trimmed, '/');
    if i < |trimmed| {
      SideStarts(trimmed[..i], d);
      SideEnds(trimmed[i + 1..], d);
    } else {
      CoreCovers(Unqualified(trimmed).0, d);
    }
  }

  lemma CoreIsReal(core: string)
    ensures ParseCore(core).Some? ==>
      var b := ParseCore(core).value; Real(b.min) && Real(b.max) && NotAfter(b.min, b.max)
  {
    if ParseCore(core).Some? { BoundsAreReal(Sign(core).0, Text.Split(Sign(core).1, '-')); }
  }

  /** The bounds of an accepted text are real days, the earliest not after the latest; a single date has both, and an
      interval lacks exactly those of its open sides. */
  lemma ResultIsOrdered(input: string)
    requires Parse(input).Ok?
    ensures var p := Parse(input).value;
      (p.min.Some? ==> Real(p.min.value)) && (p.max.Some? ==> Real(p.max.value)) &&
      (p.min.Some? && p.max.Some? ==> NotAfter(p.min.value, p.max.value)) &&
      (p.kind.Single? ==> p.min.Some? && p.max.Some?)
    ensures var trimmed := Text.Trim(input);
      var i := Text.Find(trimmed, '/');
      Parse(input).value.kind.Interval? ==>
        i < |trimmed| && (Parse(input).value.min.None? <==> IsOpen(trimmed[..i])) &&
        (Parse(input).value.max.None? <==> IsOpen(trimmed[i + 1..]))
  {
    var trimmed := Text.Trim(input);
    var i := Text.Find(trimmed, '/');
    if i < |trimmed| {
      IntervalIsOrdered(trimmed[..i], trimmed[i + 1..]);
    } else {
      CoreIsReal(Unqualified(trimmed).0);
    }
  }

  lemma SideIsReal(side: string)
    requires ParseSide(side).Some? && ParseSide(side).value.Closed?
    ensures var b := ParseSide(side).value.date.bounds; Real(b.min) && Real(b.max)
  {
    CoreIsReal(Unqualified(Text.Trim(side)).0);
  }

  lemma IntervalIsOrdered(start: string, end: string)
    requires ParseInterval(start, end).Ok?
    ensures var p := ParseInterval(start, end).value;
      (p.min.Some? ==> Real(p.min.value)) && (p.max.Some? ==> Real(p.max.value)) &&
      (p.min.Some? && p.max.Some? ==> NotAfter(p.min.value, p.max.value)) && p.kind.Interval? &&
      (p.min.None? <==> IsOpen(start)) && (p.max.None? <==> IsOpen(end))
  {
    if ParseSide(start).value.Closed? { SideIsReal(start); }
    if ParseSide(end).value.Closed? { SideIsReal(end); }
  }

  // ----- when an accepted date is about some day -----

  lemma DigitsOfTwo(pattern: string)
    requires |pattern| == 2 && IsDigits(pattern)
    ensures Low(pattern) == 10 * LowDigit(pattern[0]) + LowDigit(pattern[1])
    ensures High(pattern) == 10 * HighDigit(pattern[0]) + HighDigit(pattern[1])
  {
    var front := pattern[..1];
    assert front[..0] == [] && front[0] == pattern[0];
    assert Low(front) == LowDigit(front[0]) && High(front) == HighDigit(front[0]);
  }

  lemma DigitsOfFour(pattern: string)
    requires |pattern| == 4 && IsDigits(pattern)
    ensures Low(pattern) == 1000 * LowDigit(pattern[0]) + 100 * LowDigit(pattern[1]) + 10 * LowDigit(pattern[2])
                          + LowDigit(pattern[3])
    ensures High(pattern) == 1000 * HighDigit(pattern[0]) + 100 * HighDigit(pattern[1]) + 10 * HighDigit(pattern[2])
                           + HighDigit(pattern[3])
  {
    DigitsOfTwo(pattern[..2]);
    assert pattern[..3][..2] == pattern[..2];
  }

  /** Some number from 1 through `limit` matches a two-digit pattern whose clipped range starts there. */
  lemma FirstMatch(pattern: string, most: int, limit: int) returns (n: nat)
    requires |pattern| == 2 && IsDigits(pattern) && 10 <= limit
    requires var r := Clipped(Range(Low(pattern), High(pattern)), most); r.Some? && r.value.0 <= limit
    ensures 1 <= n <= limit && Matches(pattern, n)
    ensures pattern != "X0" ==> n == AtLeast(Low(pattern), 1)
  {
    DigitsOfTwo(pattern);
    var front := pattern[..1];
    assert front[..0] == [] && front[0] == pattern[0];
    assert pattern == [pattern[0], pattern[1]];
    if Low(pattern) >= 1 {
      LowMatches(pattern);
      n := Low(pattern);
    } else {
      assert LowDigit(pattern[0]) == 0 == LowDigit(pattern[1]);
      n := if pattern[1] == 'X' then 1 else 10;
      assert Matches(front, n / 10);
      assert Matches(pattern, n);
    }
  }

  lemma FirstYear(neg: bool, pattern: string)
    requires IsPattern(pattern)
    ensures InYear(neg, pattern, YearRange(neg, Range(Low(pattern), High(pattern))).0)
    ensures InYear(neg, pattern, YearRange(neg, Range(Low(pattern), High(pattern))).1)
  {
    RangeIsTight(pattern, 0);
  }

  /** An accepted year, month or season is always about some day. */
  lemma ShortDateDenotes(neg: bool, parts: seq<string>)
    requires 1 <= |parts| <= 2 && ParseParts(neg, parts).Some?
    ensures exists d :: PartsDenote(neg, parts, d)
  {
    FirstYear(neg, parts[0]);
    var year := YearRange(neg, DigitsRange(parts[0]).value).0;
    if |parts| == 1 {
      assert PartsDenote(neg, parts, Date(year, 1, 1));
    } else if SeasonPart(parts[1]) {
      var code := DigitsRange(parts[1]).value.lo;
      var d := Date(year, 3 * (code - 20), 1);
      assert InYear(neg, parts[0], year) && InSeason(code, year, d);
      assert PartsDenote(neg, parts, d);
    } else {
      var month := FirstMatch(parts[1], 12, 12);
      assert PartsDenote(neg, parts, Date(year, month, 1));
    }
  }

  /** A year and a month that the parts admit, in which the first day they admit exists. */
  ghost predicate LeavesRoom(neg: bool, parts: seq<string>, year: int, month: int)
    requires |parts| == 3 && ParseParts(neg, parts).Some?
  {
    InYear(neg, parts[0], year) && 1 <= month <= 12 && Matches(parts[1], month) &&
    Clipped(DigitsRange(parts[2]).value, 31).value.0 <= DaysInMonth(year, month)
  }

  /** An accepted date of three parts is about some day exactly when some year and month it admits has room for its
      first day. */
  lemma ThreePartsDenote(neg: bool, parts: seq<string>)
    requires |parts| == 3 && ParseParts(neg, parts).Some?
    ensures (exists d :: PartsDenote(neg, parts, d)) <==> (exists year, month :: LeavesRoom(neg, parts, year, month))
  {
    if d :| PartsDenote(neg, parts, d) {
      ComponentCovers(parts[2], d.day, 31);
      assert LeavesRoom(neg, parts, d.year, d.month);
    }
    if year, month :| LeavesRoom(neg, parts, year, month) {
      var day := FirstMatch(parts[2], 31, DaysInMonth(year, month));
      assert PartsDenote(neg, parts, Date(year, month, day));
    }
  }

  /** The same for a whole text that is not an interval. */
  lemma SingleDateDenotes(input: string)
    requires Parse(input).Ok? && Parse(input).value.kind.Single?
    ensures var (neg, rest) := Sign(Unqualified(Text.Trim(input)).0);
      var parts := Text.Split(rest, '-');
      (exists d :: About(input, d)) <==> |parts| <= 2 || exists year, month :: LeavesRoom(neg, parts, year, month)
  {
    var core := Unqualified(Text.Trim(input)).0;
    var (neg, rest) := Sign(core);
    var parts := Text.Split(rest, '-');
    assert forall d :: About(input, d) <==> PartsDenote(neg, parts, d);
    if |parts| <= 2 {
      ShortDateDenotes(neg, parts);
    } else {
      ThreePartsDenote(neg, parts);
    }
  }

  /** Which bounds of an accepted date are days it is about. The earliest is one unless a component is X0, which no
      component's range starts with, or the day was clamped; the latest is one when its month and day match. */
  lemma BoundsAttained(neg: bool, parts: seq<string>)
    requires parts != [] && ParseParts(neg, parts).Some?
    ensures var b := ParseParts(neg, parts).value;
      PartsDenote(neg, parts, b.min) <==>
        (|parts| >= 2 ==> parts[1] != "X0") &&
        (|parts| >= 3 ==> parts[2] != "X0" && AtLeast(Low(parts[2]), 1) <= DaysInMonth(b.min.year, b.min.month))
    ensures var b := ParseParts(neg, parts).value;
      PartsDenote(neg, parts, b.max) <==>
        (|parts| == 2 && SeasonPart(parts[1])) ||
        ((|parts| >= 2 ==> Matches(parts[1], b.max.month)) && (|parts| >= 3 ==> Matches(parts[2], b.max.day)))
  {
    FirstYear(neg, parts[0]);
    BoundsAreReal(neg, parts);
    if |parts| == 2 && SeasonPart(parts[1]) {
      SeasonIsAttained(neg, parts);
    } else if |parts| >= 2 {
      StartsMatch(parts[1], 12);
      if |parts| >= 3 {
        StartsMatch(parts[2], 31);
        RangeIsTight(parts[2], ParseParts(neg, parts).value.min.day);
      }
    }
  }

  /** Where the clipped range of a component starts matches it, unless it is X0. */
  lemma StartsMatch(pattern: string, most: int)
    requires |pattern| == 2 && IsDigits(pattern) && 12 <= most
    requires Clipped(Range(Low(pattern), High(pattern)), most).Some?
    ensures var start := Clipped(Range(Low(pattern), High(pattern)), most).value.0;
            start == AtLeast(Low(pattern), 1) && (Matches(pattern, start) <==> pattern != "X0")
  {
    var n := FirstMatch(pattern, most, most);
    DigitsOfTwo(pattern);
  }

  lemma SeasonIsAttained(neg: bool, parts: seq<string>)
    requires |parts| == 2 && SeasonPart(parts[1]) && ParseParts(neg, parts).Some?
    ensures var b := ParseParts(neg, parts).value;
            PartsDenote(neg, parts, b.min) && PartsDenote(neg, parts, b.max) && parts[1] != "X0"
  {
    FirstYear(neg, parts[0]);
    var b, code := ParseParts(neg, parts).value, DigitsRange(parts[1]).value.lo;
    var years := YearRange(neg, DigitsRange(parts[0]).value);
    assert InYear(neg, parts[0], years.0) && InSeason(code, years.0, b.min);
    assert InYear(neg, parts[0], years.1) && InSeason(code, years.1, b.max);
    DigitsOfTwo(parts[1]);
  }

  function Joined(year: string, month: string, day: string): string {
    year + ['-'] + (month + ['-'] + day)
  }

  lemma PiecesOf(year: string, month: string, day: string)
    requires '-' !in year && '-' !in month && '-' !in day
    ensures Text.Split(Joined(year, month, day), '-') == [year, month, day]
  {
    Text.SplitOfPieces(year, '-', month + ['-'] + day);
    Text.SplitOfPieces(month, '-', day);
    Text.SplitOfWhole(day, '-');
  }

  /** The text of three components has nothing to trim, no sign, no qualifier and no slash. */
  lemma JoinedIsPlain(year: string, month: string, day: string)
    requires IsPattern(year) && IsPattern(month) && IsPattern(day)
    ensures var text := Joined(year, month, day);
      Text.Trim(text) == text && text != [] && Text.Find(text, '/') == |text| && Sign(text) == (false, text) &&
      Unqualified(text) == (text, false, false)
  {
    var text := Joined(year, month, day);
    assert text[0] == year[0] && text[|text| - 1] == day[|day| - 1];
    Text.TrimOfTight(text);
    assert '/' !in year && '/' !in month && '/' !in day;
  }

  /** A whole text of three components is read part by part. */
  lemma ThreePartText(year: string, month: string, day: string)
    requires IsPattern(year) && IsPattern(month) && IsPattern(day)
    ensures var text, parts := Joined(year, month, day), [year, month, day];
      Parse(text) == (match ParseParts(false, parts)
                      case None => Err(Malformed)
                      case Some(b) => Ok(Parsed(Single, Some(b.min), Some(b.max), b.precision, false, false))) &&
      forall d :: About(text, d) <==> PartsDenote(false, parts, d)
  {
    JoinedIsPlain(year, month, day);
    PiecesOf(year, month, day);
  }

  lemma ImpossibleParts()
    ensures ParseParts(false, ["1985", "02", "3X"]) == Some(Bounds(Date(1985, 2, 28), Date(1985, 2, 28), Day))
    ensures ParseParts(false, ["19X1", "02", "29"]) == Some(Bounds(Date(1901, 2, 28), Date(1991, 2, 28), Day))
    ensures ParseParts(false, ["1985", "0X", "31"]) == Some(Bounds(Date(1985, 1, 31), Date(1985, 9, 30), Day))
  {
    ImpossibleYears();
    ImpossibleMonths();
    ImpossibleDays();
  }

  lemma ImpossibleYears()
    ensures Component("1985", 4) == Some(Range(1985, 1985)) && Component("19X1", 4) == Some(Range(1901, 1991))
  {
    DigitsOfFour("1985");
    DigitsOfFour("19X1");
  }

  lemma ImpossibleMonths()
    ensures Component("02", 2) == Some(Range(2, 2)) && Component("0X", 2) == Some(Range(0, 9))
  {
    DigitsOfTwo("02");
    DigitsOfTwo("0X");
  }

  lemma ImpossibleDays()
    ensures Component("3X", 2) == Some(Range(30, 39)) && Component("29", 2) == Some(Range(29, 29))
    ensures Component("31", 2) == Some(Range(31, 31))
  {
    DigitsOfTwo("3X");
    DigitsOfTwo("29");
    DigitsOfTwo("31");
  }

  lemma ImpossibleTexts()
    ensures "1985-02-3X" == Joined("1985", "02", "3X") && "19X1-02-29" == Joined("19X1", "02", "29")
    ensures "1985-0X-31" == Joined("1985", "0X", "31")
  {
  }

  /** The check for impossible days looks only at dates whose bounds agree in year, month and day before they are
      clamped: 1985-02-3X and 19X1-02-29 are accepted and clamped to the end of February, and are about no day. */
  lemma ImpossibleDayIsAccepted(d: Date)
    ensures Parse("1985-02-3X")
         == Ok(Parsed(Single, Some(Date(1985, 2, 28)), Some(Date(1985, 2, 28)), Day, false, false))
    ensures !About("1985-02-3X", d)
    ensures Parse("19X1-02-29")
         == Ok(Parsed(Single, Some(Date(1901, 2, 28)), Some(Date(1991, 2, 28)), Day, false, false))
    ensures !About("19X1-02-29", d)
  {
    ImpossibleTexts();
    ImpossibleParts();
    ThreePartText("1985", "02", "3X");
    ThreePartText("19X1", "02", "29");
    ThirtiethOfFebruary(d);
    TwentyNinthInOddYear(d);
  }

  lemma ThirtiethOfFebruary(d: Date)
    ensures !PartsDenote(false, ["1985", "02", "3X"], d)
  {
    ImpossibleYears();
    ImpossibleMonths();
    ImpossibleDays();
    if PartsDenote(false, ["1985", "02", "3X"], d) {
      ThreePartsBetween("1985", "02", "3X", d);
    }
  }

  lemma TwentyNinthInOddYear(d: Date)
    ensures !PartsDenote(false, ["19X1", "02", "29"], d)
  {
    ImpossibleYears();
    ImpossibleMonths();
    ImpossibleDays();
    if PartsDenote(false, ["19X1", "02", "29"], d) {
      ThreePartsBetween("19X1", "02", "29", d);
      assert "19X1" == "19X" + ['1'];
      OddYear("19X", '1', d.year);
    }
  }

  lemma ThreePartsBetween(year: string, month: string, day: string, d: Date)
    requires IsPattern(year) && IsPattern(month) && IsPattern(day) && PartsDenote(false, [year, month, day], d)
    ensures Low(year) <= d.year <= High(year) && Low(month) <= d.month <= High(month) && Low(day) <= d.day <= High(day)
  {
    RangeIsTight(year, d.year);
    RangeIsTight(month, d.month);
    RangeIsTight(day, d.day);
  }

  /** A year that ends in 1 is no leap year. */
  lemma OddYear(front: string, last: char, year: nat)
    requires Matches(front + [last], year) && last == '1'
    ensures !IsLeap(year)
  {
    assert (front + [last])[..|front|] == front;
    assert year % 10 == 1;
    assert year % 2 == 1;
  }

  /** A bound may be a day the date is not about, even when it is about some: no September has a 31st. */
  lemma ClampedBoundDoesNotMatch()
    ensures Parse("1985-0X-31")
         == Ok(Parsed(Single, Some(Date(1985, 1, 31)), Some(Date(1985, 9, 30)), Day, false, false))
    ensures About("1985-0X-31", Date(1985, 1, 31)) && !About("1985-0X-31", Date(1985, 9, 30))
  {
    ImpossibleTexts();
    ImpossibleParts();
    ThreePartText("1985", "0X", "31");
    ImpossibleYears();
    ImpossibleMonths();
    ImpossibleDays();
    BoundsAttained(false, ["1985", "0X", "31"]);
    RangeIsTight("31", 30);
  }

  // ----- exact days -----

  /** No X anywhere: the two readings of the digits agree. */
  predicate Exact(part: string) {
    IsDigits(part) && Low(part) == High(part)
  }

  /** A date with year, month and day all given is bounded by one day, the only one it denotes. */
  lemma ExactDay(neg: bool, parts: seq<string>, d: Date)
    requires |parts| == 3 && Exact(parts[0]) && Exact(parts[1]) && Exact(parts[2])
    requires ParseParts(neg, parts).Some?
    ensures var b := ParseParts(neg, parts).value;
      b.min == b.max && b.precision == Day && (PartsDenote(neg, parts, d) <==> d == b.min)
  {
    var b := ParseParts(neg, parts).value;
    BoundsAreReal(neg, parts);
    RangeIsTight(parts[0], Low(parts[0]));
    RangeIsTight(parts[1], Low(parts[1]));
    RangeIsTight(parts[2], Low(parts[2]));
    if PartsDenote(neg, parts, d) {
      PartsCover(neg, parts, d);
      RangeIsTight(parts[0], if neg then -d.year else d.year);
      RangeIsTight(parts[1], d.month);
      RangeIsTight(parts[2], d.day);
    }
  }

  /** The digits of a number, zeros in front. */
  function Padded(n: nat, width: nat): (s: string)
    ensures |s| == width && Decimal.AllDigits(s)
  {
    if width == 0 then [] else Padded(n / 10, width - 1) + [Decimal.DigitChar(n % 10)]
  }

  function Power10(k: nat): nat {
    if k == 0 then 1 else 10 * Power10(k - 1)
  }

  lemma {:induction false} PaddedIsExact(n: nat, width: nat)
    requires n < Power10(width)
    ensures Exact(Padded(n, width)) && Low(Padded(n, width)) == n
  {
    if width > 0 {
      assert n / 10 < Power10(width - 1);
      PaddedIsExact(n / 10, width - 1);
      assert Padded(n, width)[..width - 1] == Padded(n / 10, width - 1);
    }
  }

  /** The text of a day: a sign for years before 0, four digits, two and two. */
  function Format(d: Date): string
    requires -9999 <= d.year <= 9999 && Real(d)
  {
    (if d.year < 0 then ['-'] else []) +
    Joined(Padded(if d.year < 0 then -d.year else d.year, 4), Padded(d.month, 2), Padded(d.day, 2))
  }

  lemma ExactParts(neg: bool, year: string, month: string, day: string, d: Date)
    requires |year| == 4 && |month| == 2 && |day| == 2 && Exact(year) && Exact(month) && Exact(day) && Real(d)
    requires d.year == (if neg then 0 - Low(year) else Low(year)) && d.month == Low(month) && d.day == Low(day)
    ensures ParseParts(neg, [year, month, day]) == Some(Bounds(d, d, Day))
  {
    ExactComponent(year);
    ExactComponent(month);
    ExactComponent(day);
  }

  lemma ExactComponent(part: string)
    requires part != [] && Exact(part)
    ensures Component(part, |part|) == Some(Range(Low(part), Low(part)))
  {
  }

  lemma FormattedPieces(d: Date)
    requires -9999 <= d.year <= 9999 && Real(d)
    ensures var n: nat := if d.year < 0 then -d.year else d.year;
      Sign(Format(d)).0 == (d.year < 0) &&
      Text.Split(Sign(Format(d)).1, '-') == [Padded(n, 4), Padded(d.month, 2), Padded(d.day, 2)]
  {
    var n: nat := if d.year < 0 then -d.year else d.year;
    var year, month, day := Padded(n, 4), Padded(d.month, 2), Padded(d.day, 2);
    PiecesOf(year, month, day);
    var rest := Joined(year, month, day);
    assert rest[0] == year[0];
    if d.year < 0 {
      assert Format(d) == ['-'] + rest;
      assert Format(d)[1..] == rest;
    } else {
      assert Format(d) == rest;
    }
  }

  lemma FormattedParts(d: Date)
    requires -9999 <= d.year <= 9999 && Real(d)
    ensures ParseCore(Format(d)) == Some(Bounds(d, d, Day))
  {
    var n: nat := if d.year < 0 then -d.year else d.year;
    PaddedComponents(n, d.month, d.day);
    ExactParts(d.year < 0, Padded(n, 4), Padded(d.month, 2), Padded(d.day, 2), d);
    FormattedPieces(d);
  }

  lemma PaddedComponents(year: nat, month: nat, day: nat)
    requires year <= 9999 && month <= 99 && day <= 99
    ensures Exact(Padded(year, 4)) && Exact(Padded(month, 2)) && Exact(Padded(day, 2))
    ensures Low(Padded(year, 4)) == year && Low(Padded(month, 2)) == month && Low(Padded(day, 2)) == day
  {
    assert Power10(2) == 100 && Power10(4) == 10000;
    PaddedIsExact(year, 4);
    PaddedIsExact(month, 2);
    PaddedIsExact(day, 2);
  }

  /** Every real day of the years -9999 through 9999, written out, is read back as exactly that day. */
  lemma RealDaysRoundTrip(d: Date)
    requires -9999 <= d.year <= 9999 && Real(d)
    ensures Parse(Format(d)) == Ok(Parsed(Single, Some(d), Some(d), Day, false, false))
  {
    var s := Format(d);
    FormattedParts(d);
    FormattedIsTight(d);
    Text.TrimOfTight(s);
  }

  lemma FormattedIsTight(d: Date)
    requires -9999 <= d.year <= 9999 && Real(d)
    ensures var s := Format(d);
      s != [] && !Text.IsSpace(s[0]) && Decimal.IsDigit(s[|s| - 1]) && Text.Find(s, '/') == |s|
  {
    var s := Format(d);
    var day := Padded(d.day, 2);
    assert s[|s| - 1] == day[1];
    assert forall i :: 0 <= i < |s| ==> s[i] == '-' || Decimal.IsDigit(s[i]);
  }
}
