/** Decimal rendering and parsing of natural numbers, and `format_hms` on
    integral seconds (src/utils.rs). */
module Utils {
  import opened Wrappers

  const U64_LIMIT: nat := 0x1_0000_0000_0000_0000

  predicate IsDigit(c: char) { '0' <= c <= '9' }

  predicate AllDigits(s: string) { forall i :: 0 <= i < |s| ==> IsDigit(s[i]) }

  function DigitChar(d: nat): (c: char)
    requires d < 10
    ensures IsDigit(c) && c as int - '0' as int == d
  {
    ('0' as int + d) as char
  }

  /** The value of a string of decimal digits, most significant first. */
  function DigitsValue(s: string): nat
    requires AllDigits(s)
  {
    if s == [] then 0
    else DigitsValue(s[..|s| - 1]) * 10 + (s[|s| - 1] as int - '0' as int)
  }

  /** Rust's `Display` of an unsigned integer: decimal, no leading zeros. */
  function NatToString(n: nat): (s: string)
    ensures |s| > 0 && AllDigits(s)
  {
    if n < 10 then [DigitChar(n)] else NatToString(n / 10) + [DigitChar(n % 10)]
  }

  /** Rust's `{:02}`: at least two digits, padded with a leading zero. */
  function ZeroPad2(n: nat): (s: string)
    ensures |s| >= 2 && AllDigits(s)
    ensures n < 100 ==> |s| == 2
  {
    if n < 10 then "0" + NatToString(n)
    else
      assert n < 100 ==> NatToString(n) == [DigitChar(n / 10)] + [DigitChar(n % 10)];
      NatToString(n)
  }

  lemma {:induction false} NatToStringValue(n: nat)
    ensures DigitsValue(NatToString(n)) == n
  {
    var s := NatToString(n);
    if n >= 10 {
      NatToStringValue(n / 10);
      assert s[..|s| - 1] == NatToString(n / 10);
    }
  }

  lemma ZeroPad2Value(n: nat)
    ensures DigitsValue(ZeroPad2(n)) == n
  {
    NatToStringValue(n);
    if n < 10 {
      var s := ZeroPad2(n);
      assert s[..|s| - 1] == "0";
    }
  }

  /** The failure of `str::parse` for an integer type; its kind is not modelled. */
  datatype ParseIntError = ParseIntError

  /** `str::parse::<u64>`: an optional leading `+`, then one or more decimal
      digits whose value fits in 64 bits. */
  function ParseU64(s: string): (r: Result<nat, ParseIntError>)
    ensures r.Ok? ==> r.value < U64_LIMIT
  {
    var digits := if |s| > 0 && s[0] == '+' then s[1..] else s;
    if |digits| > 0 && AllDigits(digits) && DigitsValue(digits) < U64_LIMIT
    then Ok(DigitsValue(digits))
    else Err(ParseIntError)
  }

  /** `str::parse::<NonZeroU64>`: as for u64, and zero is refused. */
  function ParseNonZeroU64(s: string): (r: Result<nat, ParseIntError>)
    ensures r.Ok? ==> 0 < r.value < U64_LIMIT
    ensures r.Ok? ==> ParseU64(s) == r
  {
    match ParseU64(s)
    case Ok(n) => if n == 0 then Err(ParseIntError) else Ok(n)
    case Err(e) => Err(e)
  }

  /** Rendering a number and parsing it back gives the number again. */
  lemma ParseNatToString(n: nat)
    requires n < U64_LIMIT
    ensures ParseU64(NatToString(n)) == Ok(n)
    ensures n > 0 ==> ParseNonZeroU64(NatToString(n)) == Ok(n)
  {
    NatToStringValue(n);
  }

  // ---------------------------------------------------------------------------
  // format_hms

  /** The h/m/s decomposition `format_hms` computes: `mins = secs / 60`,
      `hours = mins / 60`, and the seconds residue `secs - (secs - secs % 60)`. */
  datatype Hms = Hms(hours: nat, minutes: nat, seconds: nat)

  function Decompose(secs: nat): (t: Hms)
    ensures t.hours * 3600 + t.minutes * 60 + t.seconds == secs
    ensures t.minutes < 60 && t.seconds < 60
    ensures t.hours == secs / 3600
  {
    var mins := secs / 60;
    var hours := mins / 60;
    var residue := secs - (secs - secs % 60);
    Hms(hours, mins % 60, residue)
  }

  /** `format_hms` for a whole number of seconds: `"{h}h{mm}m{ss}s"` when there is
      at least one hour, otherwise `"{m}m{ss}s"`. */
  function FormatHms(secs: nat): (r: string)
    ensures forall i :: 0 <= i < |r| ==> IsDigit(r[i]) || r[i] in "hms"
  {
    var t := Decompose(secs);
    var secsFmt := ZeroPad2(t.seconds);
    if t.hours > 0 then NatToString(t.hours) + "h" + ZeroPad2(t.minutes) + "m" + secsFmt + "s"
    else NatToString(t.minutes) + "m" + secsFmt + "s"
  }

  /** Splits `s` at the first occurrence of `c`. */
  function SplitAt(s: string, c: char): Option<(string, string)>
  {
    if s == [] then None
    else if s[0] == c then Some(([], s[1..]))
    else match SplitAt(s[1..], c)
      case Some((a, b)) => Some(([s[0]] + a, b))
      case None => None
  }

  /** Reads back `"{m}m{ss}s"`. */
  function ParseMinSec(s: string): Option<nat>
  {
    match SplitAt(s, 'm')
    case Some((m, rest)) => MinSecFields(m, rest)
    case None => None
  }

  /** The value of the minutes digits `m` and of `rest`, which must be `"{ss}s"`. */
  function MinSecFields(m: string, rest: string): Option<nat>
  {
    if |m| > 0 && AllDigits(m) && |rest| > 1 && rest[|rest| - 1] == 's'
       && AllDigits(rest[..|rest| - 1])
    then Some(DigitsValue(m) * 60 + DigitsValue(rest[..|rest| - 1]))
    else None
  }

  /** An inverse of `FormatHms`: reads `"{h}h..."` or `"{m}m{ss}s"` back into seconds. */
  function ParseHms(s: string): Option<nat>
  {
    match SplitAt(s, 'h')
    case Some((h, rest)) => HoursFields(h, rest)
    case None => ParseMinSec(s)
  }

  /** The value of the hours digits `h` and of `rest`, which must be `"{mm}m{ss}s"`. */
  function HoursFields(h: string, rest: string): Option<nat>
  {
    if |h| > 0 && AllDigits(h) then
      match ParseMinSec(rest)
      case Some(ms) => Some(DigitsValue(h) * 3600 + ms)
      case None => None
    else None
  }

  lemma {:induction false} SplitAfterDigits(a: string, c: char, b: string)
    requires AllDigits(a) && !IsDigit(c)
    ensures SplitAt(a + [c] + b, c) == Some((a, b))
  {
    if a != [] {
      assert (a + [c] + b)[0] == a[0] != c;
      assert (a + [c] + b)[1..] == a[1..] + [c] + b;
      assert [a[0]] + a[1..] == a;
      SplitAfterDigits(a[1..], c, b);
    }
  }

  lemma MinSecFieldsOf(m: string, ss: string)
    requires |m| > 0 && AllDigits(m) && |ss| > 0 && AllDigits(ss)
    ensures MinSecFields(m, ss + "s") == Some(DigitsValue(m) * 60 + DigitsValue(ss))
  {
    var rest := ss + "s";
    assert rest[..|rest| - 1] == ss;
  }

  lemma {:induction false} SplitAbsent(s: string, c: char)
    requires c !in s
    ensures SplitAt(s, c) == None
  {
    if s != [] {
      SplitAbsent(s[1..], c);
    }
  }

  lemma ParseMinSecSplit(m: string, rest: string)
    requires |m| > 0 && AllDigits(m)
    ensures ParseMinSec(m + ['m'] + rest) == MinSecFields(m, rest)
  {
    SplitAfterDigits(m, 'm', rest);
  }

  lemma ParseMinSecOf(m: string, ss: string)
    requires |m| > 0 && AllDigits(m) && |ss| > 0 && AllDigits(ss)
    ensures ParseMinSec(m + "m" + ss + "s") == Some(DigitsValue(m) * 60 + DigitsValue(ss))
  {
    assert m + "m" + ss + "s" == m + ['m'] + (ss + "s");
    ParseMinSecSplit(m, ss + "s");
    MinSecFieldsOf(m, ss);
  }

  lemma ParseHmsWithHours(h: string, rest: string)
    requires |h| > 0 && AllDigits(h)
    ensures ParseHms(h + ['h'] + rest) == HoursFields(h, rest)
  {
    SplitAfterDigits(h, 'h', rest);
  }

  /** Nothing is lost by `format_hms`: the rendered text reads back as the same
      number of seconds, so different durations never render alike. */
  lemma FormatHmsRoundTrip(secs: nat)
    ensures ParseHms(FormatHms(secs)) == Some(secs)
  {
    var t := Decompose(secs);
    var ss := ZeroPad2(t.seconds);
    ZeroPad2Value(t.seconds);
    if t.hours > 0 {
      var h := NatToString(t.hours);
      var mm := ZeroPad2(t.minutes);
      var rest := mm + "m" + ss + "s";
      assert FormatHms(secs) == h + ['h'] + rest;
      ParseHmsWithHours(h, rest);
      NatToStringValue(t.hours);
      ZeroPad2Value(t.minutes);
      ParseMinSecOf(mm, ss);
    } else {
      var m := NatToString(t.minutes);
      var r := m + "m" + ss + "s";
      assert FormatHms(secs) == r;
      assert 'h' !in r by {
        forall i | 0 <= i < |r| ensures r[i] != 'h' { }
      }
      SplitAbsent(r, 'h');
      NatToStringValue(t.minutes);
      ParseMinSecOf(m, ss);
    }
  }

  lemma FormatHmsInjective(a: nat, b: nat)
    requires FormatHms(a) == FormatHms(b)
    ensures a == b
  {
    FormatHmsRoundTrip(a);
    FormatHmsRoundTrip(b);
  }

  /** The hours field, and the `h` marker with it, appear exactly when the
      duration is at least an hour; no fractional part is ever rendered. */
  lemma FormatHmsShape(secs: nat)
    ensures 'h' in FormatHms(secs) <==> secs >= 3600
    ensures '.' !in FormatHms(secs)
  {
    var r := FormatHms(secs);
    var t := Decompose(secs);
    if t.hours > 0 {
      assert r[|NatToString(t.hours)|] == 'h';
    }
    forall i | 0 <= i < |r| ensures r[i] != '.' { }
  }

  /** The fields of `Decompose` in terms of `secs` itself. */
  lemma DecomposeFields(secs: nat)
    ensures Decompose(secs).seconds == secs % 60
    ensures Decompose(secs).minutes == secs / 60 % 60
    ensures Decompose(secs).hours > 0 <==> secs >= 3600
    ensures secs < 3600 ==> Decompose(secs).minutes == secs / 60
  {
  }

  /** Where the last `m`, the seconds field and the final `s` sit in `p + "m" + ss + "s"`. */
  lemma MinSecTail(p: string, ss: string)
    requires |ss| == 2
    ensures var r := p + "m" + ss + "s";
      && |r| == |p| + 4 && r[|r| - 1] == 's' && r[|r| - 4] == 'm'
      && r[|r| - 3..|r| - 1] == ss && r[..|r| - 4] == p
  {
    var r := p + "m" + ss + "s";
    assert r[|r| - 3..|r| - 1] == ss;
    assert r[..|r| - 4] == p;
  }

  /** Where the fields sit in `hs + "h" + mm + "m" + ss + "s"` with two-character
      minutes and seconds. */
  lemma HoursTail(hs: string, mm: string, ss: string)
    requires |mm| == 2 && |ss| == 2
    ensures var r := hs + "h" + mm + "m" + ss + "s";
      && |r| == |hs| + 7 && r[|r| - 7] == 'h' && r[|r| - 4] == 'm' && r[|r| - 1] == 's'
      && r[..|r| - 7] == hs && r[|r| - 6..|r| - 4] == mm && r[|r| - 3..|r| - 1] == ss
  {
    var hm := hs + "h" + mm;
    MinSecTail(hm, ss);
    assert hm[..|hm| - 3] == hs && hm[|hm| - 2..] == mm;
  }

  /** The `{:02}` padding: the seconds field between the last `m` and the
      final `s` is always exactly two digits; after an hour field the minutes
      field between `h` and `m` is exactly two digits too, and the hours
      before the `h` are written unpadded, as are the minutes without hours. */
  lemma FormatHmsFieldWidths(secs: nat)
    ensures var r := FormatHms(secs);
      && |r| >= 4 && r[|r| - 1] == 's' && r[|r| - 4] == 'm'
      && AllDigits(r[|r| - 3..|r| - 1]) && DigitsValue(r[|r| - 3..|r| - 1]) == secs % 60
    ensures secs >= 3600 ==> (
      var r := FormatHms(secs);
      && |r| >= 7 && r[|r| - 7] == 'h'
      && AllDigits(r[|r| - 6..|r| - 4]) && DigitsValue(r[|r| - 6..|r| - 4]) == secs / 60 % 60
      && r[..|r| - 7] == NatToString(secs / 3600))
    ensures secs < 3600 ==> (
      var r := FormatHms(secs);
      |r| >= 4 && r[..|r| - 4] == NatToString(secs / 60))
  {
    var t := Decompose(secs);
    DecomposeFields(secs);
    var ss := ZeroPad2(t.seconds);
    ZeroPad2Value(t.seconds);
    if t.hours > 0 {
      var mm := ZeroPad2(t.minutes);
      ZeroPad2Value(t.minutes);
      assert FormatHms(secs) == NatToString(t.hours) + "h" + mm + "m" + ss + "s";
      HoursTail(NatToString(t.hours), mm, ss);
    } else {
      assert FormatHms(secs) == NatToString(t.minutes) + "m" + ss + "s";
      MinSecTail(NatToString(t.minutes), ss);
    }
  }

  /** The worked example: 5025 seconds render as `1h23m45s`. */
  lemma FormatHmsExample()
    ensures FormatHms(5025) == "1h23m45s"
    ensures FormatHms(1425) == "23m45s"
  {
    assert Decompose(5025) == Hms(1, 23, 45);
    assert Decompose(1425) == Hms(0, 23, 45);
    assert NatToString(23) == "23" && ZeroPad2(23) == "23" && ZeroPad2(45) == "45";
  }
}
