/** Recurrence rules: the "@every" interval grammar, its matcher, and next-run computation. */
module Recurrence {
  import opened Domain

  datatype Failure = EmptyRule | NotAnInterval | NotPositive | BadCron
  datatype Result<+T> = Ok(value: T) | Error(failure: Failure)

  // ---- Characters ----

  predicate IsSpace(c: char) {
    9 <= c as int <= 13 || 28 <= c as int <= 32
  }

  predicate IsDigit(c: char) {
    '0' <= c <= '9'
  }

  const LONG_S := '\U{017F}'

  /** What the letter is compared as when case is ignored; the long s counts as an s. */
  function Lower(c: char): char {
    if 'A' <= c <= 'Z' then (c as int + 32) as char else if c == LONG_S then 's' else c
  }

  predicate AllDigits(s: string) {
    forall i :: 0 <= i < |s| ==> IsDigit(s[i])
  }

  predicate AllSpaces(s: string) {
    forall i :: 0 <= i < |s| ==> IsSpace(s[i])
  }

  function StripLeft(s: string): string {
    if s != "" && IsSpace(s[0]) then StripLeft(s[1..]) else s
  }

  function StripRight(s: string): string {
    if s != "" && IsSpace(s[|s| - 1]) then StripRight(s[..|s| - 1]) else s
  }

  function Strip(s: string): string {
    StripRight(StripLeft(s))
  }

  function DigitValue(c: char): nat
    requires IsDigit(c)
  {
    c as int - '0' as int
  }

  function NumeralValue(s: string): nat
    requires AllDigits(s)
  {
    if s == "" then 0 else 10 * NumeralValue(s[..|s| - 1]) + DigitValue(s[|s| - 1])
  }

  // ---- The matcher ----

  const KEYWORD := "@every"

  predicate StartsWithKeyword(s: string) {
    |s| >= 6 && forall i :: 0 <= i < 6 ==> Lower(s[i]) == KEYWORD[i]
  }

  function DigitRun(s: string): (n: nat)
    ensures n <= |s| && AllDigits(s[..n])
    ensures n < |s| ==> !IsDigit(s[n])
  {
    if s != "" && IsDigit(s[0]) then
      var n := DigitRun(s[1..]);
      assert s[..n + 1] == [s[0]] + s[1..][..n];
      n + 1
    else 0
  }

  /** One optional group of the pattern: a run of digits and its unit letter, in either case. */
  function Component(s: string, unit: char): (nat, string) {
    var n := DigitRun(s);
    if 0 < n < |s| && Lower(s[n]) == unit then (NumeralValue(s[..n]), s[n + 1..]) else (0, s)
  }

  function Plus(seconds: nat, rest: Option<nat>): Option<nat> {
    match rest
    case None => None
    case Some(more) => Some(seconds + more)
  }

  datatype Unit = Unit(letter: char, seconds: nat)

  const UNITS := [Unit('d', 86400), Unit('h', 3600), Unit('m', 60), Unit('s', 1)]

  /** The optional groups in their fixed order, then the end of the rule. */
  function ReadParts(s: string, units: seq<Unit>): Option<nat> {
    if units == [] then (if s == "" then Some(0) else None)
    else
      var (n, rest) := Component(s, units[0].letter);
      Plus(units[0].seconds * n, ReadParts(rest, units[1..]))
  }

  /** The total in seconds when the stripped rule matches the interval pattern. */
  function MatchInterval(rule: string): Option<nat> {
    var s := Strip(rule);
    if !StartsWithKeyword(s) then None
    else
      var tail := StripLeft(s[6..]);
      if |tail| == |s| - 6 then None
      else ReadParts(tail, UNITS)
  }

  /** Ok(None) when the rule is not an interval rule at all. */
  function ParseInterval(rule: string): Result<Option<nat>> {
    match MatchInterval(rule)
    case None => Ok(None)
    case Some(total) => if total == 0 then Error(NotPositive) else Ok(Some(total))
  }

  function NextRunFromInterval(rule: string, after: Time): Result<Time> {
    match ParseInterval(rule)
    case Error(e) => Error(e)
    case Ok(None) => Error(NotAnInterval)
    case Ok(Some(total)) => Ok(after + total as real)
  }

  function ComputeNextRun(rule: string, after: Time, cron: Cron): Result<Time> {
    var stripped := Strip(rule);
    if stripped == "" then Error(EmptyRule)
    else if KEYWORD <= stripped then NextRunFromInterval(stripped, after)
    else match cron(stripped, after)
         case None => Error(BadCron)
         case Some(at) => Ok(at)
  }

  // ---- The grammar the pattern denotes, written without any parsing ----

  datatype Part = Absent | Present(digits: string, suffix: char)

  predicate WellFormed(p: Part, unit: char) {
    p.Present? ==> p.digits != "" && AllDigits(p.digits) && Lower(p.suffix) == unit
  }

  function PartText(p: Part): string {
    if p.Absent? then "" else p.digits + [p.suffix]
  }

  function Amount(p: Part): nat
    requires p.Present? ==> AllDigits(p.digits)
  {
    if p.Absent? then 0 else NumeralValue(p.digits)
  }

  datatype Spelling = Spelling(keyword: string, gap: string, parts: seq<Part>)

  predicate LegalParts(parts: seq<Part>, units: seq<Unit>) {
    |parts| == |units| && forall i :: 0 <= i < |parts| ==> WellFormed(parts[i], units[i].letter)
  }

  predicate Legal(sp: Spelling) {
    && |sp.keyword| == 6 && StartsWithKeyword(sp.keyword)
    && sp.gap != "" && AllSpaces(sp.gap)
    && LegalParts(sp.parts, UNITS)
  }

  function PartsText(parts: seq<Part>): string {
    if parts == [] then "" else PartText(parts[0]) + PartsText(parts[1..])
  }

  function Text(sp: Spelling): string {
    sp.keyword + sp.gap + PartsText(sp.parts)
  }

  function Total(parts: seq<Part>, units: seq<Unit>): nat
    requires LegalParts(parts, units)
  {
    if parts == [] then 0 else units[0].seconds * Amount(parts[0]) + Total(parts[1..], units[1..])
  }

  function TotalSeconds(sp: Spelling): nat
    requires Legal(sp)
  {
    Total(sp.parts, UNITS)
  }

  // ---- The matcher accepts exactly the grammar, with the grammar's total ----

  lemma {:induction false} DigitRunIs(digits: string, rest: string)
    requires AllDigits(digits) && (rest != "" ==> !IsDigit(rest[0]))
    ensures DigitRun(digits + rest) == |digits|
  {
    if digits == "" {
      assert digits + rest == rest;
    } else {
      assert (digits + rest)[1..] == digits[1..] + rest;
      DigitRunIs(digits[1..], rest);
    }
  }

  lemma LetterIsNoDigit(c: char, unit: char)
    requires Lower(c) == unit && 'a' <= unit <= 'z'
    ensures !IsDigit(c) && !IsSpace(c)
  {}

  /** The group for this unit cannot match at the front of s. */
  predicate Skips(s: string, unit: char) {
    var n := DigitRun(s);
    n == 0 || n == |s| || Lower(s[n]) != unit
  }

  lemma PartSkips(p: Part, own: char, rest: string, unit: char)
    requires WellFormed(p, own) && 'a' <= own <= 'z' && own != unit && Skips(rest, unit)
    ensures Skips(PartText(p) + rest, unit)
  {
    if p.Present? {
      LetterIsNoDigit(p.suffix, own);
      DigitRunIs(p.digits, [p.suffix] + rest);
      assert PartText(p) + rest == p.digits + ([p.suffix] + rest);
    } else {
      assert PartText(p) + rest == rest;
    }
  }

  lemma ComponentReads(p: Part, unit: char, rest: string)
    requires WellFormed(p, unit) && 'a' <= unit <= 'z' && Skips(rest, unit)
    ensures Component(PartText(p) + rest, unit) == (Amount(p), rest)
  {
    if p.Present? {
      LetterIsNoDigit(p.suffix, unit);
      var s := p.digits + ([p.suffix] + rest);
      DigitRunIs(p.digits, [p.suffix] + rest);
      assert PartText(p) + rest == s && s[..|p.digits|] == p.digits && s[|p.digits| + 1..] == rest;
    } else {
      assert PartText(p) + rest == rest;
    }
  }

  lemma {:induction false} GapStrips(gap: string, rest: string)
    requires AllSpaces(gap) && (rest != "" ==> !IsSpace(rest[0]))
    ensures StripLeft(gap + rest) == rest
  {
    if gap == "" {
      assert gap + rest == rest;
    } else {
      assert (gap + rest)[1..] == gap[1..] + rest;
      GapStrips(gap[1..], rest);
    }
  }

  lemma PartHead(p: Part, unit: char, rest: string)
    requires WellFormed(p, unit) && (rest != "" ==> !IsSpace(rest[0]))
    ensures PartText(p) + rest != "" ==> !IsSpace((PartText(p) + rest)[0])
  {
    if p.Present? {
      assert IsDigit(p.digits[0]);
      assert (PartText(p) + rest)[0] == p.digits[0];
    } else {
      assert PartText(p) + rest == rest;
    }
  }

  lemma {:induction false} PartsHead(parts: seq<Part>, units: seq<Unit>)
    requires LegalParts(parts, units)
    ensures PartsText(parts) != "" ==> !IsSpace(PartsText(parts)[0])
  {
    if parts != [] {
      PartsHead(parts[1..], units[1..]);
      PartHead(parts[0], units[0].letter, PartsText(parts[1..]));
    }
  }

  predicate LetterUnits(units: seq<Unit>) {
    && (forall i :: 0 <= i < |units| ==> 'a' <= units[i].letter <= 'z')
    && (forall i, j :: 0 <= i < j < |units| ==> units[i].letter != units[j].letter)
  }

  lemma {:induction false} PartsSkip(parts: seq<Part>, units: seq<Unit>, letter: char)
    requires LegalParts(parts, units) && LetterUnits(units)
    requires forall i :: 0 <= i < |units| ==> units[i].letter != letter
    ensures Skips(PartsText(parts), letter)
  {
    if parts != [] {
      PartsSkip(parts[1..], units[1..], letter);
      PartSkips(parts[0], units[0].letter, PartsText(parts[1..]), letter);
    }
  }

  lemma {:induction false} PartsRead(parts: seq<Part>, units: seq<Unit>)
    requires LegalParts(parts, units) && LetterUnits(units)
    ensures ReadParts(PartsText(parts), units) == Some(Total(parts, units))
  {
    if parts != [] {
      PartsRead(parts[1..], units[1..]);
      PartsSkip(parts[1..], units[1..], units[0].letter);
      ComponentReads(parts[0], units[0].letter, PartsText(parts[1..]));
    }
  }

  lemma MatchComplete(rule: string, sp: Spelling)
    requires Legal(sp) && Strip(rule) == Text(sp)
    ensures MatchInterval(rule) == Some(TotalSeconds(sp))
  {
    PartsRead(sp.parts, UNITS);
    PartsHead(sp.parts, UNITS);
    KeywordAndGap(sp.keyword, sp.gap, PartsText(sp.parts));
  }

  lemma KeywordAndGap(keyword: string, gap: string, body: string)
    requires |keyword| == 6 && StartsWithKeyword(keyword) && gap != "" && AllSpaces(gap)
    requires body != "" ==> !IsSpace(body[0])
    ensures var s := keyword + gap + body;
            StartsWithKeyword(s) && StripLeft(s[6..]) == body && |body| < |s| - 6
  {
    var s := keyword + gap + body;
    assert s[6..] == gap + body;
    forall i | 0 <= i < 6 ensures Lower(s[i]) == KEYWORD[i] {
      assert s[i] == keyword[i];
    }
    GapStrips(gap, body);
  }

  lemma ComponentSplits(s: string, unit: char) returns (p: Part)
    ensures WellFormed(p, unit) && Component(s, unit).0 == Amount(p) && s == PartText(p) + Component(s, unit).1
  {
    var n := DigitRun(s);
    if 0 < n < |s| && Lower(s[n]) == unit {
      p := Present(s[..n], s[n]);
      assert s == s[..n] + [s[n]] + s[n + 1..];
    } else {
      p := Absent;
    }
  }

  lemma {:induction false} StripLeftSplits(s: string) returns (gap: string)
    ensures AllSpaces(gap) && s == gap + StripLeft(s)
  {
    if s != "" && IsSpace(s[0]) {
      var tail := StripLeftSplits(s[1..]);
      gap := [s[0]] + tail;
    } else {
      gap := "";
    }
  }

  lemma {:induction false} PartsSplit(s: string, units: seq<Unit>) returns (parts: seq<Part>)
    requires ReadParts(s, units).Some?
    ensures LegalParts(parts, units) && PartsText(parts) == s
  {
    if units == [] {
      parts := [];
    } else {
      var p := ComponentSplits(s, units[0].letter);
      var rest := PartsSplit(Component(s, units[0].letter).1, units[1..]);
      parts := [p] + rest;
      assert parts[1..] == rest;
    }
  }

  lemma MatchSound(rule: string) returns (sp: Spelling)
    requires MatchInterval(rule).Some?
    ensures Legal(sp) && Text(sp) == Strip(rule) && TotalSeconds(sp) == MatchInterval(rule).value
  {
    var s := Strip(rule);
    var gap := StripLeftSplits(s[6..]);
    var parts := PartsSplit(StripLeft(s[6..]), UNITS);
    sp := Spelling(s[..6], gap, parts);
    assert s == s[..6] + s[6..];
    assert Text(sp) == s;
    MatchComplete(rule, sp);
  }

  /** parse_interval accepts a rule, with this duration, exactly when the grammar spells it so. */
  lemma ParseIntervalExact(rule: string, total: nat)
    ensures ParseInterval(rule) == Ok(Some(total)) <==>
            total > 0 && exists sp :: Legal(sp) && Text(sp) == Strip(rule) && TotalSeconds(sp) == total
  {
    if MatchInterval(rule).Some? {
      var sp := MatchSound(rule);
      assert Legal(sp) && Text(sp) == Strip(rule);
      forall other | Legal(other) && Text(other) == Strip(rule)
        ensures TotalSeconds(other) == MatchInterval(rule).value
      {
        MatchComplete(rule, other);
      }
    } else {
      forall sp | Legal(sp) && Text(sp) == Strip(rule) ensures false {
        MatchComplete(rule, sp);
      }
    }
  }

  // ---- Printing a rule and reading it back ----

  function Digit(n: nat): char
    requires n < 10
  {
    ('0' as int + n) as char
  }

  function Numeral(n: nat): (s: string)
    ensures s != "" && AllDigits(s)
  {
    if n < 10 then [Digit(n)] else Numeral(n / 10) + [Digit(n % 10)]
  }

  lemma {:induction false} NumeralReads(n: nat)
    ensures NumeralValue(Numeral(n)) == n
  {
    if n < 10 {
      assert Numeral(n) == [Digit(n)] && NumeralValue("") == 0;
      assert Numeral(n)[..0] == "";
    } else {
      NumeralReads(n / 10);
      var s := Numeral(n / 10) + [Digit(n % 10)];
      assert s[..|s| - 1] == Numeral(n / 10) && s[|s| - 1] == Digit(n % 10);
    }
  }

  function PrintPart(n: nat, unit: char): Part {
    if n == 0 then Absent else Present(Numeral(n), unit)
  }

  function Canonical(d: nat, h: nat, m: nat, s: nat): Spelling {
    Spelling(KEYWORD, " ", [PrintPart(d, 'd'), PrintPart(h, 'h'), PrintPart(m, 'm'), PrintPart(s, 's')])
  }

  /** "@every {d}d{h}h{m}m{s}s" with every zero component left out. */
  function PrintRule(d: nat, h: nat, m: nat, s: nat): string {
    Text(Canonical(d, h, m, s))
  }

  lemma Amounts(n: nat, unit: char)
    requires Lower(unit) == unit
    ensures WellFormed(PrintPart(n, unit), unit) && Amount(PrintPart(n, unit)) == n
  {
    NumeralReads(n);
  }

  lemma {:induction false} PartsTail(parts: seq<Part>, units: seq<Unit>)
    requires LegalParts(parts, units) && LetterUnits(units)
    ensures PartsText(parts) != "" ==> !IsSpace(PartsText(parts)[|PartsText(parts)| - 1])
    ensures PartsText(parts) == "" <==> forall i :: 0 <= i < |parts| ==> parts[i].Absent?
  {
    if parts != [] {
      PartsTail(parts[1..], units[1..]);
      if PartsText(parts[1..]) == "" && parts[0].Present? {
        LetterIsNoDigit(parts[0].suffix, units[0].letter);
        assert PartsText(parts) == parts[0].digits + [parts[0].suffix];
      }
      assert forall i :: 1 <= i < |parts| ==> parts[i] == parts[1..][i - 1];
      assert forall i :: 0 <= i < |parts[1..]| ==> parts[1..][i] == parts[i + 1];
    }
  }

  lemma TextIsStripped(sp: Spelling)
    requires Legal(sp) && PartsText(sp.parts) != "" && sp.keyword == KEYWORD
    ensures Strip(Text(sp)) == Text(sp)
  {
    PartsTail(sp.parts, UNITS);
    var body := PartsText(sp.parts);
    var text := sp.keyword + sp.gap + body;
    assert text[0] == '@' && text[|text| - 1] == body[|body| - 1];
  }

  lemma TotalCons(p: Part, ps: seq<Part>, u: Unit, us: seq<Unit>)
    requires WellFormed(p, u.letter) && LegalParts(ps, us)
    ensures LegalParts([p] + ps, [u] + us)
    ensures Total([p] + ps, [u] + us) == u.seconds * Amount(p) + Total(ps, us)
  {
    assert ([p] + ps)[1..] == ps && ([u] + us)[1..] == us;
  }

  lemma TotalOfFour(d: Part, h: Part, m: Part, s: Part)
    requires WellFormed(d, 'd') && WellFormed(h, 'h') && WellFormed(m, 'm') && WellFormed(s, 's')
    ensures LegalParts([d, h, m, s], UNITS)
    ensures Total([d, h, m, s], UNITS) == 86400 * Amount(d) + 3600 * Amount(h) + 60 * Amount(m) + Amount(s)
  {
    TotalCons(s, [], UNITS[3], []);
    TotalCons(m, [s], UNITS[2], [UNITS[3]]);
    TotalCons(h, [m] + [s], UNITS[1], [UNITS[2]] + [UNITS[3]]);
    TotalCons(d, [h] + ([m] + [s]), UNITS[0], [UNITS[1]] + ([UNITS[2]] + [UNITS[3]]));
    assert [s] + [] == [s] && [UNITS[3]] + [] == [UNITS[3]];
    assert UNITS == [UNITS[0]] + ([UNITS[1]] + ([UNITS[2]] + [UNITS[3]]));
    assert [d, h, m, s] == [d] + ([h] + ([m] + [s]));
  }

  lemma CanonicalIsLegal(d: nat, h: nat, m: nat, s: nat)
    ensures Legal(Canonical(d, h, m, s))
    ensures TotalSeconds(Canonical(d, h, m, s)) == 86400 * d + 3600 * h + 60 * m + s
  {
    Amounts(d, 'd');
    Amounts(h, 'h');
    Amounts(m, 'm');
    Amounts(s, 's');
    TotalOfFour(PrintPart(d, 'd'), PrintPart(h, 'h'), PrintPart(m, 'm'), PrintPart(s, 's'));
  }

  lemma CanonicalIsStripped(d: nat, h: nat, m: nat, s: nat)
    requires d + h + m + s > 0
    ensures Strip(PrintRule(d, h, m, s)) == PrintRule(d, h, m, s)
  {
    var sp := Canonical(d, h, m, s);
    CanonicalIsLegal(d, h, m, s);
    PartsTail(sp.parts, UNITS);
    assert sp.parts[0].Present? || sp.parts[1].Present? || sp.parts[2].Present? || sp.parts[3].Present?;
    TextIsStripped(sp);
  }

  lemma PrintedRuleReadsBack(d: nat, h: nat, m: nat, s: nat)
    requires d + h + m + s > 0
    ensures ParseInterval(PrintRule(d, h, m, s)) == Ok(Some(86400 * d + 3600 * h + 60 * m + s))
  {
    CanonicalIsLegal(d, h, m, s);
    CanonicalIsStripped(d, h, m, s);
    MatchComplete(PrintRule(d, h, m, s), Canonical(d, h, m, s));
  }

  // ---- Next runs ----

  /** What is assumed of the cron library: it answers with a time after its base. */
  ghost predicate CronMovesForward(cron: Cron) {
    forall rule, t :: cron(rule, t).Some? ==> cron(rule, t).value > t
  }

  lemma NextRunIsLater(rule: string, after: Time, cron: Cron)
    requires CronMovesForward(cron) && ComputeNextRun(rule, after, cron).Ok?
    ensures ComputeNextRun(rule, after, cron).value > after
  {
    assert cron(Strip(rule), after).Some? ==> cron(Strip(rule), after).value > after;
  }

  /** The n-th run of a chain whose runs are each computed from the previous one. */
  function NthRun(rule: string, start: Time, n: nat, cron: Cron): Result<Time> {
    if n == 0 then Ok(start)
    else match NthRun(rule, start, n - 1, cron)
         case Error(e) => Error(e)
         case Ok(t) => ComputeNextRun(rule, t, cron)
  }

  // ---- Which accepted rules run at even intervals ----

  lemma {:induction false} StripRightKeepsHead(s: string)
    ensures StripRight(s) == "" || (s != "" && StripRight(s)[0] == s[0])
    ensures StripRight(StripRight(s)) == StripRight(s)
  {
    if s != "" && IsSpace(s[|s| - 1]) {
      StripRightKeepsHead(s[..|s| - 1]);
    }
  }

  lemma {:induction false} StripLeftKeepsNoSpace(s: string)
    ensures StripLeft(s) == "" || !IsSpace(StripLeft(s)[0])
  {
    if s != "" && IsSpace(s[0]) {
      StripLeftKeepsNoSpace(s[1..]);
    }
  }

  lemma StripTwice(s: string)
    ensures Strip(Strip(s)) == Strip(s)
  {
    StripLeftKeepsNoSpace(s);
    StripRightKeepsHead(StripLeft(s));
  }

  function Multiple(n: nat, delta: real): real {
    if n == 0 then 0.0 else Multiple(n - 1, delta) + delta
  }

  lemma {:induction false} MultipleIsProduct(n: nat, delta: real)
    ensures Multiple(n, delta) == n as real * delta
  {
    if n > 0 {
      MultipleIsProduct(n - 1, delta);
      var k := (n - 1) as real;
      assert n as real == k + 1.0;
      assert (k + 1.0) * delta == k * delta + delta;
    }
  }

  lemma IntervalStep(rule: string, after: Time, delta: nat, cron: Cron)
    requires ParseInterval(rule) == Ok(Some(delta)) && KEYWORD <= Strip(rule)
    ensures ComputeNextRun(rule, after, cron) == Ok(after + delta as real)
  {
    StripTwice(rule);
  }

  lemma {:induction false} IntervalRunsAddUp(rule: string, start: Time, n: nat, delta: nat, cron: Cron)
    requires ParseInterval(rule) == Ok(Some(delta)) && KEYWORD <= Strip(rule)
    ensures NthRun(rule, start, n, cron) == Ok(start + Multiple(n, delta as real))
  {
    if n > 0 {
      IntervalRunsAddUp(rule, start, n - 1, delta, cron);
      IntervalStep(rule, start + Multiple(n - 1, delta as real), delta, cron);
    }
  }

  lemma SameRun(run: Result<Time>, start: Time, a: real, b: real)
    requires run == Ok(start + a) && a == b
    ensures run == Ok(start + b)
  {}

  /** Iterating an interval rule n times from t lands on t plus n durations. */
  lemma IntervalRuns(rule: string, start: Time, n: nat, delta: nat, cron: Cron)
    requires ParseInterval(rule) == Ok(Some(delta)) && KEYWORD <= Strip(rule)
    ensures NthRun(rule, start, n, cron) == Ok(start + n as real * delta as real)
  {
    IntervalRunsAddUp(rule, start, n, delta, cron);
    MultipleIsProduct(n, delta as real);
    SameRun(NthRun(rule, start, n, cron), start, Multiple(n, delta as real), n as real * delta as real);
  }

  const NO_CRON: Cron := (rule, after) => None

  lemma OtherSpellingGoesToCron(rule: string, start: Time, delta: nat, cron: Cron)
    requires ParseInterval(rule) == Ok(Some(delta)) && !(KEYWORD <= Strip(rule))
    ensures ComputeNextRun(rule, start, cron) == match cron(Strip(rule), start)
                                                 case None => Error(BadCron)
                                                 case Some(at) => Ok(at)
  {
    assert MatchInterval(rule).Some? && Strip(rule) != "";
  }

  /**
   Of the rules that parse_interval accepts, exactly those that spell the keyword in lower case run at even
   intervals whatever the cron library says; all others are left to it, and fail when it refuses them.
   */
  lemma IntervalRunsAreEvenlySpaced(rule: string, start: Time, delta: nat)
    requires ParseInterval(rule) == Ok(Some(delta))
    ensures KEYWORD <= Strip(rule) <==>
            forall n: nat, cron: Cron :: NthRun(rule, start, n, cron) == Ok(start + n as real * delta as real)
    ensures !(KEYWORD <= Strip(rule)) ==> ComputeNextRun(rule, start, NO_CRON) == Error(BadCron)
  {
    if KEYWORD <= Strip(rule) {
      forall n: nat, cron: Cron ensures NthRun(rule, start, n, cron) == Ok(start + n as real * delta as real) {
        IntervalRuns(rule, start, n, delta, cron);
      }
    } else {
      OtherSpellingGoesToCron(rule, start, delta, NO_CRON);
      assert NthRun(rule, start, 0, NO_CRON) == Ok(start);
      assert NthRun(rule, start, 1, NO_CRON) == Error(BadCron);
    }
  }

  /** The grammar gives the rule this duration, in a spelling with the keyword in lower case. */
  ghost predicate SpellsInterval(rule: string, total: nat) {
    && KEYWORD <= Strip(rule) && total > 0
    && exists sp :: Legal(sp) && Text(sp) == Strip(rule) && TotalSeconds(sp) == total
  }

  /** The rule names a positive interval, or the cron library answers it. */
  ghost predicate HasNextRun(rule: string, now: Time, cron: Cron) {
    || (exists total :: SpellsInterval(rule, total))
    || (!(KEYWORD <= Strip(rule)) && Strip(rule) != "" && cron(Strip(rule), now).Some?)
  }

  lemma SpelledRuleParses(rule: string, total: nat)
    requires SpellsInterval(rule, total)
    ensures ParseInterval(rule) == Ok(Some(total)) && ParseInterval(Strip(rule)) == Ok(Some(total))
  {
    StripTwice(rule);
    ParseIntervalExact(rule, total);
  }

  /** The next run of a rule, by the grammar and the cron library alone. */
  lemma NextRunExactly(rule: string, now: Time, cron: Cron)
    ensures ComputeNextRun(rule, now, cron).Ok? <==> HasNextRun(rule, now, cron)
    ensures forall total :: SpellsInterval(rule, total) ==>
              ComputeNextRun(rule, now, cron) == Ok(now + total as real)
    ensures !(KEYWORD <= Strip(rule)) && Strip(rule) != "" && cron(Strip(rule), now).Some? ==>
              ComputeNextRun(rule, now, cron) == Ok(cron(Strip(rule), now).value)
  {
    forall total | SpellsInterval(rule, total) ensures ComputeNextRun(rule, now, cron) == Ok(now + total as real) {
      SpelledRuleParses(rule, total);
    }
    if ComputeNextRun(rule, now, cron).Ok? && KEYWORD <= Strip(rule) {
      StripTwice(rule);
      var total := ParseInterval(rule).value.value;
      ParseIntervalExact(rule, total);
      assert SpellsInterval(rule, total);
    }
  }

  const UPPER_RULE := "@EVERY 5m"

  /** An interval rule to parse_interval, a refused cron expression to compute_next_run. */
  lemma UpperCaseIsRefused(start: Time, cron: Cron)
    requires cron(UPPER_RULE, start) == None
    ensures ParseInterval(UPPER_RULE) == Ok(Some(300))
    ensures ComputeNextRun(UPPER_RULE, start, cron) == Error(BadCron)
  {
    var sp := Spelling("@EVERY", " ", [Absent, Absent, Present("5", 'm'), Absent]);
    UpperSpelling(sp);
    MatchComplete(UPPER_RULE, sp);
    assert UPPER_RULE[1] != KEYWORD[1];
    OtherSpellingGoesToCron(UPPER_RULE, start, 300, cron);
  }

  lemma FiveIsFive()
    ensures NumeralValue("5") == 5
  {
    assert NumeralValue("") == 0 && "5"[..0] == "";
  }

  lemma UpperText(parts: seq<Part>)
    requires parts == [Absent, Absent, Present("5", 'm'), Absent]
    ensures "@EVERY" + " " + PartsText(parts) == UPPER_RULE == Strip(UPPER_RULE)
  {
    assert PartsText(parts[3..]) == "" && PartsText(parts[2..]) == "5m" && PartsText(parts[1..]) == "5m";
  }

  lemma UpperSpelling(sp: Spelling)
    requires sp == Spelling("@EVERY", " ", [Absent, Absent, Present("5", 'm'), Absent])
    ensures Legal(sp) && Text(sp) == UPPER_RULE == Strip(UPPER_RULE) && TotalSeconds(sp) == 300
  {
    FiveIsFive();
    UpperText(sp.parts);
    TotalOfFour(Absent, Absent, Present("5", 'm'), Absent);
  }
}
