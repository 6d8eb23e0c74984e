/**
 Backup retention, in the two forms it is written: the short text a person types
 ("30j", "12h", "90m") and the duration text Velero reads ("720h0m0s").
 Durations count nanoseconds in 64 bits.
 */
module Ttl {
  import opened Text
  import opened Wrappers

  const MINUTE := 60_000_000_000
  const HOUR := 3_600_000_000_000
  const TWO_63 := 0x8000_0000_0000_0000
  const TWO_64 := 0x1_0000_0000_0000_0000
  /** The largest whole numbers of minutes and hours a duration can hold. */
  const MAX_MINUTES := 153_722_867
  const MAX_HOURS := 2_562_047

  /** What a 64-bit signed multiplication leaves of `n`. */
  function Wrap64(n: int): int {
    (n + TWO_63) % TWO_64 - TWO_63
  }

  // ---- decimal numbers ----

  predicate IsDigit(c: char) {
    '0' <= c <= '9'
  }

  function Digit(c: char): nat
    requires IsDigit(c)
  {
    c as int - '0' as int
  }

  predicate AllDigits(s: string) {
    forall c | c in s :: IsDigit(c)
  }

  function Value(s: string): nat
    requires AllDigits(s)
  {
    if s == "" then 0
    else
      assert IsDigit(s[|s| - 1]) && AllDigits(s[..|s| - 1]);
      Value(s[..|s| - 1]) * 10 + Digit(s[|s| - 1])
  }

  function Digits(n: nat): string {
    (if n < 10 then "" else Digits(n / 10)) + ['0' + (n % 10) as char]
  }

  function Show(n: int): string {
    if n < 0 then ['-'] + Digits(-n) else Digits(n)
  }

  /** strconv.Atoi: an optional sign, then at least one digit, within 64 bits. */
  function Atoi(s: string): Option<int> {
    var signed := s != "" && (s[0] == '-' || s[0] == '+');
    var digits := if signed then s[1..] else s;
    if digits == "" || !AllDigits(digits) then None
    else
      var n: int := if signed && s[0] == '-' then -(Value(digits) as int) else Value(digits);
      if -TWO_63 <= n < TWO_63 then Some(n) else None
  }

  lemma {:induction false} DigitsRead(n: nat)
    ensures Digits(n) != "" && AllDigits(Digits(n)) && Value(Digits(n)) == n
  {
    var last := ['0' + (n % 10) as char];
    assert IsDigit(last[0]);
    if n >= 10 {
      DigitsRead(n / 10);
      var s := Digits(n / 10) + last;
      assert s[..|s| - 1] == Digits(n / 10);
    } else {
      assert Digits(n)[..0] == "";
    }
  }

  // ---- durations ----

  function UnitOf(u: string): Option<int> {
    if u == "h" then Some(HOUR) else if u == "m" then Some(MINUTE) else if u == "s" then Some(1_000_000_000)
    else if u == "ms" then Some(1_000_000) else if u == "us" || u == "\U{B5}s" || u == "\U{3BC}s" then Some(1_000)
    else if u == "ns" then Some(1) else None
  }

  /** Length of the leading run of digits, or of non-digits. */
  function Run(s: string, digits: bool): (k: nat)
    ensures k <= |s|
    ensures digits ==> AllDigits(s[..k])
  {
    if s == "" || IsDigit(s[0]) != digits then 0
    else
      assert digits ==> AllDigits(s[1..][..Run(s[1..], digits)]);
      assert s[..1 + Run(s[1..], digits)] == [s[0]] + s[1..][..Run(s[1..], digits)];
      1 + Run(s[1..], digits)
  }

  /** A sum of number-unit components; None is the parse error, overflow included. */
  function Components(s: string, sum: int): Option<int>
    decreases |s|
  {
    if s == "" then Some(sum)
    else
      var k := Run(s, true);
      var v := Value(s[..k]);
      var u := Run(s[k..], false);
      if k == 0 || v > TWO_63 || u == 0 then None
      else
        match UnitOf(s[k..][..u])
        case None => None
        case Some(unit) =>
          if v > TWO_63 / unit || sum + v * unit > TWO_63 then None
          else Components(s[k..][u..], sum + v * unit)
  }

  /** time.ParseDuration for texts without a fraction. */
  function ParseDuration(s: string): Option<int>
    requires '.' !in s
  {
    var neg := s != "" && s[0] == '-';
    var body := if s != "" && (s[0] == '-' || s[0] == '+') then s[1..] else s;
    if body == "0" then Some(0)
    else if body == "" then None
    else
      match Components(body, 0)
      case None => None
      case Some(d) => if neg then Some(-d) else if d > TWO_63 - 1 then None else Some(d)
  }

  // ---- the two converters ----

  function ToLower(s: string): string {
    if s == "" then ""
    else [if 'A' <= s[0] <= 'Z' then s[0] - 'A' + 'a' else s[0]] + ToLower(s[1..])
  }

  /** Short text to duration text; empty on anything unreadable. */
  function VeleroTTLFromShort(text: string): string {
    var t := Trim(ToLower(text));
    if t == "" then ""
    else FromTrimmed(t)
  }

  function FromTrimmed(t: string): string
    requires t != ""
  {
    var unit := t[|t| - 1];
    match Atoi(t[..|t| - 1])
    case None => ""
    case Some(n) =>
      if n <= 0 then ""
      else if unit == 'j' then HoursOf(Wrap64(n * 24))
      else if unit == 'h' then HoursOf(n)
      else if unit == 'm' then MinutesOf(n)
      else ""
  }

  function HoursOf(n: int): string {
    Show(n) + "h0m0s"
  }

  function MinutesOf(n: int): string {
    "0h" + (Show(n) + "m0s")
  }

  /** Truncating division, as for machine integers. */
  function Quot(a: int, b: int): int
    requires b > 0
  {
    if a >= 0 then a / b else -((-a) / b)
  }

  /** Duration text to short text. */
  function TtlToText(ttl: string): string
    requires '.' !in ttl
  {
    if ttl == "" then ""
    else
      match ParseDuration(ttl)
      case None => ttl
      case Some(d) => ShortOf(Quot(d, MINUTE))
  }

  function ShortOf(total: int): string {
    var hours := Quot(total, 60);
    var minutes := total - 60 * hours;
    if total == 0 then ""
    else if minutes == 0 && hours > 0 then
      if hours % 24 == 0 then Show(hours / 24) + "j" else Show(hours) + "h"
    else Show(total) + "m"
  }

  // ---- reading printed texts ----

  lemma {:induction false} RunOfDigits(s: string, rest: string)
    requires AllDigits(s) && (rest == "" || !IsDigit(rest[0]))
    ensures Run(s + rest, true) == |s|
  {
    if s == "" {
      assert s + rest == rest;
    } else {
      assert IsDigit(s[0]) && AllDigits(s[1..]);
      assert (s + rest)[1..] == s[1..] + rest;
      RunOfDigits(s[1..], rest);
    }
  }

  lemma UnitRun(c: char, rest: string)
    requires !IsDigit(c) && (rest == "" || IsDigit(rest[0]))
    ensures Run([c] + rest, false) == 1
  {
    assert ([c] + rest)[1..] == rest;
  }

  /** The nanoseconds of the three units the printers use. */
  function Nanos(c: char): int {
    if c == 'h' then HOUR else if c == 'm' then MINUTE else 1_000_000_000
  }

  lemma UnitNanos(c: char)
    requires c == 'h' || c == 'm' || c == 's'
    ensures UnitOf([c]) == Some(Nanos(c)) && !IsDigit(c)
  {
    assert [c] != "ms" && [c] != "us" && [c] != "ns" && [c] != "\U{B5}s" && [c] != "\U{3BC}s";
  }

  lemma FirstComponent(s: string, k: nat, v: nat, u: string, unit: int, rest: string, sum: int)
    requires 0 < k < |s| && Run(s, true) == k && AllDigits(s[..k]) && Value(s[..k]) == v
    requires s[k..] == u + rest && Run(s[k..], false) == |u| > 0
    requires UnitOf(u) == Some(unit) && unit > 0
    ensures Components(s, sum) ==
            if v > TWO_63 || v > TWO_63 / unit || sum + v * unit > TWO_63 then None
            else Components(rest, sum + v * unit)
  {
    hide Value, Run, UnitOf, IsDigit;
    assert s[k..][..|u|] == u && s[k..][|u|..] == rest;
  }

  /** One component at the front of a duration text. */
  lemma Component(n: nat, c: char, rest: string, sum: int)
    requires c == 'h' || c == 'm' || c == 's'
    requires rest == "" || IsDigit(rest[0])
    ensures Components(Digits(n) + ([c] + rest), sum) ==
            if n > TWO_63 || n > TWO_63 / Nanos(c) || sum + n * Nanos(c) > TWO_63 then None
            else Components(rest, sum + n * Nanos(c))
  {
    DigitsRead(n);
    UnitNanos(c);
    RunOfDigits(Digits(n), [c] + rest);
    UnitRun(c, rest);
    hide Digits, Value, Run, Components, UnitOf;
    var d := Digits(n);
    var s := d + ([c] + rest);
    assert s[..|d|] == d && s[|d|..] == [c] + rest;
    FirstComponent(s, |d|, n, [c], Nanos(c), rest, sum);
  }

  lemma ZeroDigits()
    ensures Digits(0) == "0"
  {
  }

  lemma NoComponents(sum: int)
    ensures Components("", sum) == Some(sum)
  {
  }

  lemma ZeroSeconds(sum: nat)
    requires sum <= TWO_63
    ensures Components("0s", sum) == Some(sum)
  {
    hide Components, Digits;
    Component(0, 's', "", sum);
    ZeroDigits();
    NoComponents(sum);
    assert "0" + (['s'] + "") == "0s";
  }

  lemma ZeroMinutes(sum: nat)
    requires sum <= TWO_63
    ensures Components("0m0s", sum) == Some(sum)
  {
    hide Components, Digits;
    assert IsDigit("0s"[0]);
    Component(0, 'm', "0s", sum);
    ZeroDigits();
    ZeroSeconds(sum);
    assert "0" + (['m'] + "0s") == "0m0s";
  }

  lemma HourComponents(n: nat)
    ensures Components(Digits(n) + "h0m0s", 0) == if n <= TWO_63 / HOUR then Some(n * HOUR) else None
  {
    hide Components, Digits;
    assert IsDigit("0m0s"[0]);
    Component(n, 'h', "0m0s", 0);
    assert ['h'] + "0m0s" == "h0m0s";
    if n <= TWO_63 / HOUR {
      ZeroMinutes(n * HOUR);
    }
  }

  lemma MinuteComponents(n: nat)
    ensures Components(Digits(n) + "m0s", 0) == if n <= TWO_63 / MINUTE then Some(n * MINUTE) else None
  {
    hide Components, Digits;
    assert IsDigit("0s"[0]);
    Component(n, 'm', "0s", 0);
    assert ['m'] + "0s" == "m0s";
    if n <= TWO_63 / MINUTE {
      ZeroSeconds(n * MINUTE);
    }
  }

  lemma HoursText(h: int)
    ensures var s := HoursOf(h);
            |s| >= 6 && s[|s| - 1] == 's' && '.' !in s && !IsSpace(s[0])
            && (h < 0 ==> s[0] == '-' && s[1..] == Digits(-h) + "h0m0s")
            && (h >= 0 ==> s[0] != '-' && s[0] != '+' && s == Digits(h) + "h0m0s")
  {
    hide Digits, Value;
    var m := if h < 0 then -h else h;
    DigitsRead(m);
    var d := Digits(m);
    assert forall x | x in d :: IsDigit(x);
    assert IsDigit(d[0]);
    var s := HoursOf(h);
    assert h >= 0 ==> s == d + "h0m0s";
    assert h < 0 ==> s == ['-'] + d + "h0m0s";
    assert h < 0 ==> s[1..] == d + "h0m0s";
  }

  /** "<h>h0m0s" is h hours while they fit, a negative duration or an error otherwise. */
  lemma HoursParse(h: int)
    ensures '.' !in HoursOf(h)
    ensures var d := ParseDuration(HoursOf(h));
            && (0 <= h <= MAX_HOURS ==> d == Some(h * HOUR))
            && (h > MAX_HOURS ==> d == None)
            && (h < 0 ==> d == None || d == Some(h * HOUR))
  {
    hide HoursOf, Digits, Components;
    HoursText(h);
    HourComponents(if h < 0 then -h else h);
  }

  lemma MinutesText(n: nat)
    ensures var s := MinutesOf(n);
            |s| >= 6 && s[|s| - 1] == 's' && '.' !in s && !IsSpace(s[0])
            && s[0] != '-' && s[0] != '+' && s == Digits(0) + (['h'] + (Digits(n) + "m0s"))
            && IsDigit((Digits(n) + "m0s")[0])
  {
    DigitsRead(n);
    ZeroDigits();
    hide Digits, Value;
    assert "0" + (['h'] + (Digits(n) + "m0s")) == "0h" + (Digits(n) + "m0s");
    assert IsDigit(Digits(n)[0]);
  }

  lemma MinutesParse(n: nat)
    ensures '.' !in MinutesOf(n)
    ensures ParseDuration(MinutesOf(n)) == if n <= MAX_MINUTES then Some(n * MINUTE) else None
  {
    hide MinutesOf, Digits, Components;
    MinutesText(n);
    MinuteComponents(n);
    Component(0, 'h', Digits(n) + "m0s", 0);
  }

  lemma AtoiShow(n: int)
    requires -TWO_63 < n < TWO_63
    ensures Atoi(Show(n)) == Some(n)
  {
    hide Digits, Value;
    DigitsRead(if n < 0 then -n else n);
    if n < 0 {
      assert Show(n)[1..] == Digits(-n);
    } else {
      assert IsDigit(Show(n)[0]);
    }
  }

  lemma {:induction false} LowerShape(s: string)
    ensures |ToLower(s)| == |s|
    ensures forall i | 0 <= i < |s| :: ToLower(s)[i] == if 'A' <= s[i] <= 'Z' then s[i] - 'A' + 'a' else s[i]
  {
    if s == "" {
    } else {
      LowerShape(s[1..]);
    }
  }

  lemma ShowText(n: int, c: char)
    requires c == 'j' || c == 'h' || c == 'm'
    ensures var s := Show(n) + [c];
            s != "" && !IsSpace(s[0]) && !IsSpace(s[|s| - 1]) && forall i | 0 <= i < |s| :: !('A' <= s[i] <= 'Z')
  {
    hide Digits, Value;
    var m := if n < 0 then -n else n;
    DigitsRead(m);
    var d := Digits(m);
    assert forall i | 0 <= i < |d| :: d[i] in d && IsDigit(d[i]);
    assert IsDigit(d[0]);
    var s := Show(n) + [c];
    assert n >= 0 ==> s == d + [c];
    assert n < 0 ==> s == ['-'] + d + [c];
  }

  /** A printed short text is read as its number and unit. */
  lemma ShortReads(n: int, c: char)
    requires c == 'j' || c == 'h' || c == 'm'
    requires -TWO_63 < n < TWO_63
    ensures VeleroTTLFromShort(Show(n) + [c]) ==
            if n <= 0 then "" else if c == 'j' then HoursOf(Wrap64(n * 24)) else if c == 'h' then HoursOf(n) else MinutesOf(n)
  {
    var s := Show(n) + [c];
    ShowText(n, c);
    LowerShape(s);
    TrimTight(s);
    AtoiShow(n);
    hide Show, Atoi, Trim, ToLower, HoursOf, MinutesOf;
    assert ToLower(s) == s;
    assert s[..|s| - 1] == Show(n);
  }

  lemma ShortOfCases(total: int)
    requires 0 < total
    ensures ShortOf(total) ==
            if total % 60 != 0 then Show(total) + ['m']
            else if total / 60 % 24 == 0 then Show(total / 60 / 24) + ['j']
            else Show(total / 60) + ['h']
  {
    hide Show;
    assert total % 60 == total - 60 * (total / 60);
  }

  lemma WrapSmall(n: int)
    requires -TWO_63 <= n < TWO_63
    ensures Wrap64(n) == n
  {
  }

  lemma ShortOfReads(total: int)
    requires 0 < total <= MAX_MINUTES
    ensures VeleroTTLFromShort(ShortOf(total)) ==
            if total % 60 == 0 then HoursOf(total / 60) else MinutesOf(total)
  {
    hide VeleroTTLFromShort, HoursOf, MinutesOf, Show, ShortOf, Wrap64;
    var hours := total / 60;
    ShortOfCases(total);
    WrapSmall(hours);
    if total % 60 == 0 {
      if hours % 24 == 0 {
        ShortReads(hours / 24, 'j');
      } else {
        ShortReads(hours, 'h');
      }
    } else {
      ShortReads(total, 'm');
    }
  }

  lemma ShortOfParses(total: int)
    requires 0 < total <= MAX_MINUTES
    ensures var ttl := VeleroTTLFromShort(ShortOf(total));
            '.' !in ttl && ttl != "" && ParseDuration(ttl) == Some(total * MINUTE)
  {
    hide VeleroTTLFromShort, ShortOf, HoursOf, MinutesOf, ParseDuration, Digits;
    ShortOfReads(total);
    HoursParse(total / 60);
    MinutesParse(total);
    HoursText(total / 60);
    MinutesText(total);
  }

  lemma NegativeReads(total: int)
    requires -TWO_63 < total < 0
    ensures ShortOf(total) != "" && VeleroTTLFromShort(ShortOf(total)) == ""
  {
    hide VeleroTTLFromShort, Show;
    ShortReads(total, 'm');
  }

  // ---- round trips ----

  lemma ComponentsStep(s: string, sum: nat) returns (rest: string, sum': nat)
    requires s != "" && sum <= TWO_63 && Components(s, sum).Some?
    ensures |rest| < |s| && sum <= sum' <= TWO_63 && Components(s, sum) == Components(rest, sum')
  {
    var k := Run(s, true);
    var v := Value(s[..k]);
    var u := Run(s[k..], false);
    var unit := UnitOf(s[k..][..u]).value;
    hide Value, Run, UnitOf;
    rest := s[k..][u..];
    sum' := sum + v * unit;
  }

  lemma {:induction false} ComponentsBound(s: string, sum: nat)
    requires sum <= TWO_63 && Components(s, sum).Some?
    ensures 0 <= Components(s, sum).value <= TWO_63
    decreases |s|
  {
    if s == "" {
    } else {
      var rest, sum' := ComponentsStep(s, sum);
      ComponentsBound(rest, sum');
    }
  }

  lemma ParseBound(s: string)
    requires '.' !in s
    ensures ParseDuration(s).Some? ==> -TWO_63 <= ParseDuration(s).value < TWO_63
  {
    hide Components;
    var body := if s != "" && (s[0] == '-' || s[0] == '+') then s[1..] else s;
    if Components(body, 0).Some? {
      ComponentsBound(body, 0);
    }
  }

  lemma EmptyText()
    ensures VeleroTTLFromShort("") == "" && TtlToText("") == "" && ParseDuration("") == None
  {
  }

  /** Printing a whole number of minutes and reading it back preserves the
      duration, exactly when there is something to keep. */
  lemma DurationRoundTrip(ttl: string)
    requires '.' !in ttl && ParseDuration(ttl).Some? && ParseDuration(ttl).value % MINUTE == 0
    ensures '.' !in VeleroTTLFromShort(TtlToText(ttl))
    ensures ParseDuration(VeleroTTLFromShort(TtlToText(ttl))) == ParseDuration(ttl) <==>
            ParseDuration(ttl).value > 0
  {
    hide ParseDuration, VeleroTTLFromShort;
    var d := ParseDuration(ttl).value;
    ParseBound(ttl);
    EmptyText();
    var total := Quot(d, MINUTE);
    assert total * MINUTE == d;
    if d > 0 {
      ShortOfParses(total);
    } else if d < 0 {
      NegativeReads(total);
    }
  }

  /** The number and unit of a readable short text. */
  function Reading(text: string): Option<(int, char)> {
    var t := Trim(ToLower(text));
    if t == "" then None
    else
      match Atoi(t[..|t| - 1])
      case None => None
      case Some(n) =>
        var unit := t[|t| - 1];
        if n > 0 && (unit == 'j' || unit == 'h' || unit == 'm') then Some((n, unit)) else None
  }

  lemma ReadingIsWritten(text: string)
    ensures match Reading(text)
            case None => VeleroTTLFromShort(text) == ""
            case Some((n, unit)) =>
              && 0 < n < TWO_63 && (unit == 'j' || unit == 'h' || unit == 'm')
              && VeleroTTLFromShort(text) ==
                 if unit == 'j' then HoursOf(Wrap64(n * 24)) else if unit == 'h' then HoursOf(n) else MinutesOf(n)
  {
    hide Trim, ToLower, AllDigits, Value, Show;
  }

  /** What is written fits a duration. Days are first multiplied in 64 bits. */
  predicate Fits(text: string) {
    match Reading(text)
    case None => true
    case Some((n, unit)) =>
      if unit == 'j' then 0 <= Wrap64(n * 24) <= MAX_HOURS
      else if unit == 'h' then n <= MAX_HOURS
      else n <= MAX_MINUTES
  }

  lemma WrittenHasNoDot(text: string)
    ensures '.' !in VeleroTTLFromShort(text)
  {
    hide VeleroTTLFromShort, Reading, HoursOf, MinutesOf;
    ReadingIsWritten(text);
    if Reading(text).Some? {
      var (n, unit) := Reading(text).value;
      HoursText(if unit == 'j' then Wrap64(n * 24) else n);
      MinutesText(n);
    }
  }

  /** The short form a short text is shown back in. */
  function Normal(text: string): string {
    WrittenHasNoDot(text);
    TtlToText(VeleroTTLFromShort(text))
  }

  /** A duration text ends in 's', so it is not itself a short text. */
  lemma LongIsNotShort(s: string)
    requires s != "" && s[|s| - 1] == 's' && !IsSpace(s[0])
    ensures VeleroTTLFromShort(s) == ""
  {
    hide ToLower, Trim, Atoi;
    LowerShape(s);
    assert ToLower(s)[|s| - 1] == 's';
    assert !IsSpace(ToLower(s)[0]);
    TrimTight(ToLower(s));
  }

  lemma ShortOfNormal(total: int)
    requires 0 < total <= MAX_MINUTES
    ensures Normal(ShortOf(total)) == ShortOf(total)
  {
    ShortOfParses(total);
    hide VeleroTTLFromShort, ShortOf, ParseDuration;
    assert Quot(total * MINUTE, MINUTE) == total;
  }

  lemma EmptyNormal()
    ensures Normal("") == ""
  {
  }

  /** A text of hours is stable from its first normal form on, or not at all. */
  lemma HoursNormal(h: int)
    requires -TWO_63 <= h < TWO_63
    ensures '.' !in HoursOf(h)
    ensures Normal(TtlToText(HoursOf(h))) == TtlToText(HoursOf(h)) <==> 0 <= h <= MAX_HOURS
  {
    hide ParseDuration, VeleroTTLFromShort, HoursOf, ShortOf;
    HoursParse(h);
    HoursText(h);
    ParseBound(HoursOf(h));
    EmptyNormal();
    EmptyText();
    ShortOfZero();
    if ParseDuration(HoursOf(h)) == None {
      LongIsNotShort(HoursOf(h));
    } else {
      assert Quot(h * HOUR, MINUTE) == h * 60;
      if h > 0 {
        ShortOfNormal(h * 60);
      } else if h < 0 {
        NegativeReads(h * 60);
      }
    }
  }

  lemma ShortOfZero()
    ensures ShortOf(0) == "" && Quot(0, MINUTE) == 0
  {
  }

  lemma MinutesNormal(n: nat)
    requires 0 < n
    ensures '.' !in MinutesOf(n)
    ensures Normal(TtlToText(MinutesOf(n))) == TtlToText(MinutesOf(n)) <==> n <= MAX_MINUTES
  {
    hide ParseDuration, VeleroTTLFromShort, MinutesOf, ShortOf;
    MinutesParse(n);
    MinutesText(n);
    EmptyText();
    if n <= MAX_MINUTES {
      assert Quot(n * MINUTE, MINUTE) == n;
      ShortOfNormal(n);
    } else {
      LongIsNotShort(MinutesOf(n));
    }
  }

  /** Normalising a short text twice is normalising it once, exactly when what is
      written fits a duration. */
  lemma NormalIsIdempotent(text: string)
    ensures Normal(Normal(text)) == Normal(text) <==> Fits(text)
  {
    hide VeleroTTLFromShort, Reading, HoursOf, MinutesOf, TtlToText;
    ReadingIsWritten(text);
    EmptyText();
    EmptyNormal();
    match Reading(text) {
      case None =>
      case Some((n, unit)) =>
        if unit == 'm' {
          MinutesNormal(n);
        } else {
          HoursNormal(if unit == 'j' then Wrap64(n * 24) else n);
        }
    }
  }

  /** The duration a short text names. */
  function Meaning(n: int, unit: char): int {
    if unit == 'j' then n * 24 * HOUR else if unit == 'h' then n * HOUR else n * MINUTE
  }

  /** Reading a short text yields the duration it names exactly when 64 bits hold it. */
  lemma ShortMeans(text: string)
    requires Reading(text).Some?
    ensures '.' !in VeleroTTLFromShort(text)
    ensures var (n, unit) := Reading(text).value;
            ParseDuration(VeleroTTLFromShort(text)) == Some(Meaning(n, unit)) <==> Meaning(n, unit) < TWO_63
  {
    hide VeleroTTLFromShort, Reading, HoursOf, MinutesOf, ParseDuration;
    ReadingIsWritten(text);
    WrittenHasNoDot(text);
    ParseBound(VeleroTTLFromShort(text));
    var (n, unit) := Reading(text).value;
    HoursParse(if unit == 'j' then Wrap64(n * 24) else n);
    MinutesParse(n);
  }

  /** How a retention of whole minutes is shown: in days when it is whole days, else in hours when
      it is whole hours, else in minutes; and one that is not positive, as nothing or in minutes. */
  lemma ShownInLargestUnit(ttl: string, n: int)
    requires '.' !in ttl && ttl != "" && ParseDuration(ttl) == Some(n * MINUTE)
    ensures TtlToText(ttl) == if n == 0 then ""
                              else if n > 0 && n % 1440 == 0 then Show(n / 1440) + "j"
                              else if n > 0 && n % 60 == 0 then Show(n / 60) + "h"
                              else Show(n) + "m"
  {
    hide ParseDuration, Show;
    assert Quot(n * MINUTE, MINUTE) == n;
    MinutesInUnits(n);
  }

  lemma MinutesInUnits(n: int)
    ensures ShortOf(n) == if n == 0 then ""
                          else if n > 0 && n % 1440 == 0 then Show(n / 1440) + "j"
                          else if n > 0 && n % 60 == 0 then Show(n / 60) + "h"
                          else Show(n) + "m"
  {
    hide Show;
    if n > 0 {
      ShortOfCases(n);
      assert n % 1440 == 0 <==> n % 60 == 0 && n / 60 % 24 == 0;
      assert n % 1440 == 0 ==> n / 60 / 24 == n / 1440;
    }
  }

  /** Past the 64-bit range a retention in days silently becomes another one:
      this one reads as eight hours. */
  lemma DaysCanWrap()
    ensures VeleroTTLFromShort(Show(768614336404564651) + ['j']) == HoursOf(8)
  {
    hide VeleroTTLFromShort, Show, HoursOf;
    ShortReads(768614336404564651, 'j');
  }
}
