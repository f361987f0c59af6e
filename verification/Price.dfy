/** Reading prices as they are said in Korean: a left-to-right reader, measured against every way to write a number. */
module Price {
  import opened Basics

  predicate IsDigit(c: char) { '0' <= c <= '9' }

  function DigitValue(c: char): nat
    requires IsDigit(c)
  {
    (c - '0') as nat
  }

  function HangulDigit(c: char): Option<nat> {
    if c == '영' then Some(0) else if c == '일' then Some(1) else if c == '이' then Some(2)
    else if c == '삼' then Some(3) else if c == '사' then Some(4) else if c == '오' then Some(5)
    else if c == '육' then Some(6) else if c == '칠' then Some(7) else if c == '팔' then Some(8)
    else if c == '구' then Some(9) else None
  }

  function UnitValue(c: char): Option<nat> {
    if c == '십' then Some(10) else if c == '백' then Some(100) else if c == '천' then Some(1000) else None
  }

  // ----- the reader as a fold over characters -----

  /** total: what is closed by a 만; section: the part below the next 만; num: a number waiting for its unit. */
  datatype Reading = Reading(total: nat, section: nat, num: Option<nat>, inDigits: bool)

  const BLANK := Reading(0, 0, None, false)

  function Or(num: Option<nat>, default: nat): nat { if num.Some? then num.value else default }

  function ReadChar(s: Reading, c: char): Reading {
    if IsDigit(c) then
      s.(num := Some(if s.inDigits then Or(s.num, 0) * 10 + DigitValue(c) else DigitValue(c)), inDigits := true)
    else
      var t := s.(inDigits := false);
      if HangulDigit(c).Some? then t.(num := HangulDigit(c))
      else if UnitValue(c).Some? then t.(section := s.section + Or(s.num, 1) * UnitValue(c).value, num := None)
      else if c == '만' then
        var section := s.section + Or(s.num, 0);
        t.(total := s.total + (if section == 0 then 1 else section) * 10_000, section := 0, num := None)
      else t
  }

  function Read(s: Reading, text: string): Reading
    decreases |text|
  {
    if text == "" then s else Read(ReadChar(s, text[0]), text[1..])
  }

  function WithoutCommas(text: string): string {
    if text == "" then ""
    else (if text[0] == ',' then "" else [text[0]]) + WithoutCommas(text[1..])
  }

  function Value(s: Reading): Option<nat> {
    var n := s.total + s.section + Or(s.num, 0);
    if n == 0 then None else Some(n)
  }

  function Price(text: string): Option<nat> { Value(Read(BLANK, WithoutCommas(text))) }

  lemma {:induction false} ReadAppend(s: Reading, a: string, b: string)
    ensures Read(s, a + b) == Read(Read(s, a), b)
    decreases |a|
  {
    if a == "" {
      assert a + b == b;
    } else {
      assert (a + b)[1..] == a[1..] + b;
      ReadAppend(ReadChar(s, a[0]), a[1..], b);
    }
  }

  lemma ReadOne(s: Reading, c: char)
    ensures Read(s, [c]) == ReadChar(s, c)
  {
    assert [c][1..] == "";
    assert Read(ReadChar(s, c), "") == ReadChar(s, c);
  }

  // ----- the reader as it runs -----

  /** int() of a run of digits. */
  function Decimal(digits: string): nat
    requires forall c <- digits :: IsDigit(c)
  {
    if digits == "" then 0
    else Decimal(digits[..|digits| - 1]) * 10 + DigitValue(digits[|digits| - 1])
  }

  /** A whole run of digits read character by character is its value. */
  lemma {:induction false} ReadRun(s: Reading, digits: string)
    requires digits != "" && !s.inDigits && forall c <- digits :: IsDigit(c)
    ensures Read(s, digits) == s.(num := Some(Decimal(digits)), inDigits := true)
    decreases |digits|
  {
    var n := |digits| - 1;
    var before, last := digits[..n], digits[n];
    assert digits == before + [last];
    ReadAppend(s, before, [last]);
    ReadOne(Read(s, before), last);
    if n > 0 { ReadRun(s, before); }
  }

  method ToInt(written: string) returns (price: Option<nat>)
    ensures price == Price(written)
  {
    hide Decimal, HangulDigit, UnitValue, WithoutCommas;
    var text := WithoutCommas(written);
    var total: nat, section: nat, num: Option<nat> := 0, 0, None;
    ghost var inDigits := false;
    var index := 0;
    while index < |text|
      invariant 0 <= index <= |text|
      invariant Read(BLANK, text) == Read(Reading(total, section, num, inDigits), text[index..])
      invariant inDigits && index < |text| ==> !IsDigit(text[index])
    {
      var c := text[index];
      ghost var s := Reading(total, section, num, inDigits);
      if IsDigit(c) {
        var end := index;
        while end < |text| && IsDigit(text[end])
          invariant index <= end <= |text| && forall k :: index <= k < end ==> IsDigit(text[k])
        {
          end := end + 1;
        }
        num := Some(Decimal(text[index..end]));
        assert text[index..] == text[index..end] + text[end..];
        ReadAppend(s, text[index..end], text[end..]);
        ReadRun(s, text[index..end]);
        index, inDigits := end, true;
        continue;
      }
      if HangulDigit(c).Some? {
        num := HangulDigit(c);
      } else if UnitValue(c).Some? {
        section := section + (if num.None? then 1 else num.value) * UnitValue(c).value;
        num := None;
      } else if c == '만' {
        section := section + if num.None? then 0 else num.value;
        total := total + (if section == 0 then 1 else section) * 10_000;
        section, num := 0, None;
      }
      inDigits := false;
      assert text[index..][1..] == text[index + 1..];
      index := index + 1;
    }
    total := total + section + if num.None? then 0 else num.value;
    price := if total == 0 then None else Some(total);
  }

  // ----- writing a number -----

  /** How a digit is written in front of its unit; a one may be left out. */
  datatype Style = LeftOut | Hangul | Arabic

  predicate Allowed(d: nat, style: Style) { d <= 9 && (style.LeftOut? ==> d == 1) }

  function DigitText(d: nat, style: Style): string
    requires Allowed(d, style)
  {
    match style
    case LeftOut => ""
    case Arabic => [('0' as int + d) as char]
    case Hangul => [['영', '일', '이', '삼', '사', '오', '육', '칠', '팔', '구'][d]]
  }

  /** Four digits with the styles of those in front of a unit; a zero is not said at all. */
  datatype Section =
    | Figures(digits: string)                                                // 5000
    | Spoken(n: nat, thousands: Style, hundreds: Style, tens: Style, ones: Style)  // 삼천오백, 3천5백, 천

  predicate WellWritten(s: Section) {
    match s
    case Figures(digits) => forall c <- digits :: IsDigit(c)
    case Spoken(n, a, b, c, d) =>
      && n <= 9999
      && (n / 1000 > 0 ==> Allowed(n / 1000, a)) && (n / 100 % 10 > 0 ==> Allowed(n / 100 % 10, b))
      && (n / 10 % 10 > 0 ==> Allowed(n / 10 % 10, c)) && d != LeftOut
  }

  function SectionValue(s: Section): nat
    requires WellWritten(s)
  {
    match s
    case Figures(digits) => Decimal(digits)
    case Spoken(n, _, _, _, _) => n
  }

  function Place(d: nat, style: Style, unit: char): string
    requires d > 0 ==> Allowed(d, style)
  {
    if d == 0 then "" else DigitText(d, style) + [unit]
  }

  function SectionText(s: Section): string
    requires WellWritten(s)
  {
    match s
    case Figures(digits) => digits
    case Spoken(n, a, b, c, d) =>
      Place(n / 1000, a, '천') + (Place(n / 100 % 10, b, '백') + (Place(n / 10 % 10, c, '십')
      + (if n % 10 == 0 then "" else DigitText(n % 10, d))))
  }

  /** A price: figures alone, or a multiple of 만 (a bare 만 for one) and a rest. */
  datatype Written = Whole(digits: string) | Man(high: Option<Section>, low: Option<Section>)

  predicate Optional(s: Option<Section>) { s.Some? ==> WellWritten(s.value) }

  function OptionalText(s: Option<Section>): string
    requires Optional(s)
  {
    if s.None? then "" else SectionText(s.value)
  }

  function OptionalValue(s: Option<Section>): nat
    requires Optional(s)
  {
    if s.None? then 0 else SectionValue(s.value)
  }

  predicate Sensible(w: Written) {
    match w
    case Whole(digits) => forall c <- digits :: IsDigit(c)
    case Man(high, low) => Optional(high) && Optional(low) && (high.Some? ==> OptionalValue(high) > 0)
  }

  function NumberOf(w: Written): nat
    requires Sensible(w)
  {
    match w
    case Whole(digits) => Decimal(digits)
    case Man(high, low) =>
      (if high.None? then 1 else OptionalValue(high)) * 10_000 + OptionalValue(low)
  }

  function TextOf(w: Written): string
    requires Sensible(w)
  {
    match w
    case Whole(digits) => digits
    case Man(high, low) => OptionalText(high) + (['만'] + OptionalText(low))
  }

  // ----- reading it back -----

  /** Nothing is pending: the next number starts afresh. */
  predicate Fresh(s: Reading) { s.num.None? && !s.inDigits }

  lemma ReadDigit(s: Reading, d: nat, style: Style)
    requires Fresh(s) && Allowed(d, style)
    ensures var r := Read(s, DigitText(d, style));
            r == s.(num := if style.LeftOut? then None else Some(d), inDigits := style.Arabic?)
  {
    if style.LeftOut? {
    } else {
      ReadOne(s, DigitText(d, style)[0]);
    }
  }

  lemma UnitsStandAlone(c: char)
    requires UnitValue(c).Some?
    ensures !IsDigit(c) && HangulDigit(c).None?
  {}

  lemma ReadPlace(s: Reading, d: nat, style: Style, unit: char)
    requires Fresh(s) && (d > 0 ==> Allowed(d, style)) && UnitValue(unit).Some?
    ensures Read(s, Place(d, style, unit)) == s.(section := s.section + d * UnitValue(unit).value)
  {
    hide DigitText, HangulDigit, UnitValue;
    UnitsStandAlone(unit);
    if d > 0 {
      ReadDigit(s, d, style);
      ReadAppend(s, DigitText(d, style), [unit]);
      ReadOne(Read(s, DigitText(d, style)), unit);
    }
  }

  /** What a section adds once its pending number is counted in. */
  predicate Holds(r: Reading, s: Reading, n: nat) {
    r.total == s.total && r.section + Or(r.num, 0) == s.section + n
  }

  lemma ReadSpoken(s: Reading, w: Section)
    requires Fresh(s) && w.Spoken? && WellWritten(w)
    ensures Holds(Read(s, SectionText(w)), s, w.n)
  {
    var n := w.n;
    var th, hu := Place(n / 1000, w.thousands, '천'), Place(n / 100 % 10, w.hundreds, '백');
    var te := Place(n / 10 % 10, w.tens, '십');
    var on := if n % 10 == 0 then "" else DigitText(n % 10, w.ones);
    ReadAppend(s, th, hu + (te + on));
    ReadPlace(s, n / 1000, w.thousands, '천');
    var s1 := Read(s, th);
    ReadAppend(s1, hu, te + on);
    ReadPlace(s1, n / 100 % 10, w.hundreds, '백');
    var s2 := Read(s1, hu);
    ReadAppend(s2, te, on);
    ReadPlace(s2, n / 10 % 10, w.tens, '십');
    var s3 := Read(s2, te);
    if n % 10 != 0 { ReadDigit(s3, n % 10, w.ones); }
    FourDigits(n);
  }

  lemma FourDigits(n: nat)
    requires n <= 9999
    ensures n == n / 1000 * 1000 + n / 100 % 10 * 100 + n / 10 % 10 * 10 + n % 10
  {
    Shift(n, 10);
    Shift(n / 10, 10);
    Shift(n / 100, 10);
    assert n / 10 / 10 == n / 100 && n / 100 / 10 == n / 1000;
  }

  lemma Shift(n: nat, base: nat)
    requires base > 0
    ensures n == n / base * base + n % base
  {}

  lemma ReadSection(s: Reading, w: Section)
    requires Fresh(s) && WellWritten(w)
    ensures Holds(Read(s, SectionText(w)), s, SectionValue(w))
  {
    match w
    case Figures(digits) => if digits != "" { ReadRun(s, digits); }
    case Spoken(_, _, _, _, _) => ReadSpoken(s, w);
  }

  /** Just after a 만. */
  function Closed(n: nat): Reading { Reading((if n == 0 then 1 else n) * 10_000, 0, None, false) }

  lemma ReadMan(s: Reading, n: nat)
    requires Holds(s, BLANK, n)
    ensures Read(s, ['만']) == Closed(n)
  {
    ReadOne(s, '만');
  }

  lemma ReadNone(s: Reading)
    ensures Read(s, "") == s
  {}

  lemma ReadWhole(digits: string)
    requires forall c <- digits :: IsDigit(c)
    requires Decimal(digits) > 0
    ensures Value(Read(BLANK, digits)) == Some(Decimal(digits))
  {
    ReadRun(BLANK, digits);
  }

  lemma ReadOptional(s: Reading, w: Option<Section>)
    requires Fresh(s) && Optional(w)
    ensures Holds(Read(s, OptionalText(w)), s, OptionalValue(w))
  {
    hide ReadChar, SectionText, Read, WellWritten, SectionValue;
    ReadNone(s);
    if w.Some? { ReadSection(s, w.value); }
  }

  lemma ReadManText(high: Option<Section>, low: Option<Section>)
    requires Optional(high) && Optional(low) && (high.Some? ==> OptionalValue(high) > 0)
    ensures Value(Read(BLANK, OptionalText(high) + (['만'] + OptionalText(low))))
            == Some((if high.None? then 1 else OptionalValue(high)) * 10_000 + OptionalValue(low))
  {
    hide ReadChar, Read, Optional, OptionalText, OptionalValue;
    if high.None? { NoneIsZero(high); }
    ReadOptional(BLANK, high);
    ReadThrough(OptionalText(high), OptionalValue(high), OptionalText(low), low);
  }

  /** What is read after the 만 starts from a closed section. */
  lemma ReadClosed(front: string, n: nat, rest: string)
    requires Holds(Read(BLANK, front), BLANK, n)
    ensures Read(BLANK, front + (['만'] + rest)) == Read(Closed(n), rest)
  {
    hide ReadChar, Holds, Read;
    ReadAppend(BLANK, front, ['만'] + rest);
    ReadAppend(Read(BLANK, front), ['만'], rest);
    ReadMan(Read(BLANK, front), n);
  }

  lemma ReadThrough(front: string, n: nat, rest: string, low: Option<Section>)
    requires Optional(low) && rest == OptionalText(low) && Holds(Read(BLANK, front), BLANK, n)
    ensures Value(Read(BLANK, front + (['만'] + rest)))
            == Some((if n == 0 then 1 else n) * 10_000 + OptionalValue(low))
  {
    hide ReadChar, Read, Optional, OptionalText, OptionalValue;
    ReadClosed(front, n, rest);
    ReadOptional(Closed(n), low);
  }

  lemma NoneIsZero(w: Option<Section>)
    requires w.None?
    ensures Optional(w) && OptionalValue(w) == 0
  {}

  /** Reading a price back gives the number that was written, in every way of writing it, commas anywhere. */
  lemma RoundTrip(w: Written, text: string)
    requires Sensible(w) && NumberOf(w) > 0 && WithoutCommas(text) == TextOf(w)
    ensures Price(text) == Some(NumberOf(w))
  {
    match w
    case Whole(digits) => ReadWhole(digits);
    case Man(high, low) => ReadManText(high, low);
  }

  function Figure(n: nat): (s: string)
    ensures forall c <- s :: IsDigit(c)
    ensures Decimal(s) == n
  {
    if n == 0 then ""
    else
      var before, last := Figure(n / 10), ('0' as int + n % 10) as char;
      assert (before + [last])[..|before|] == before;
      before + [last]
  }

  /** How a price from 1 to 99,999,999 is said: its 만 and the rest, each digit in any style. */
  predicate SaidAs(n: nat, high: Section, low: Section) {
    && high.Spoken? && high.n == n / 10_000 && WellWritten(high)
    && low.Spoken? && low.n == n % 10_000 && WellWritten(low)
  }

  function SaidText(n: nat, high: Section, low: Section): string
    requires SaidAs(n, high, low)
  {
    if n < 10_000 then SectionText(low) else SectionText(high) + (['만'] + SectionText(low))
  }

  lemma SmallPrice(n: nat, low: Section)
    requires n > 0 && low.Spoken? && low.n == n && WellWritten(low)
    ensures Value(Read(BLANK, SectionText(low))) == Some(n)
  {
    hide ReadChar, SectionText, Read, WellWritten;
    ReadSection(BLANK, low);
  }

  lemma LargePrice(n: nat, high: Section, low: Section)
    requires n >= 10_000 && SaidAs(n, high, low)
    ensures Value(Read(BLANK, SectionText(high) + (['만'] + SectionText(low)))) == Some(n)
  {
    hide ReadChar, SectionText, Read, WellWritten;
    Shift(n, 10_000);
    ReadManText(Some(high), Some(low));
  }

  lemma EveryPrice(n: nat, high: Section, low: Section, text: string)
    requires 1 <= n <= 99_999_999 && SaidAs(n, high, low) && WithoutCommas(text) == SaidText(n, high, low)
    ensures Price(text) == Some(n)
  {
    hide Value, SectionText, Read, WellWritten, WithoutCommas;
    if n < 10_000 { SmallPrice(n, low); } else { LargePrice(n, high, low); }
  }

  /** Figures alone, commas anywhere, of any size. */
  lemma FiguresOfAnyNumber(n: nat, text: string)
    requires n > 0 && WithoutCommas(text) == Figure(n)
    ensures Price(text) == Some(n)
  {
    ReadWhole(Figure(n));
  }

  // ----- ranges -----

  function Power(width: nat): bool { width == 1 || (width > 0 && width % 10 == 0 && Power(width / 10)) }

  /** The step of a "대" range: the largest power of ten that divides the value. */
  method BandWidth(value: nat) returns (width: nat)
    requires value > 0  // the reader never yields zero
    ensures Power(width) && value % width == 0 && value % (width * 10) != 0
    // the range is exactly the numbers that begin like the value
    ensures forall x: nat :: value <= x <= value + width - 1 <==> x / width == value / width
  {
    width := 1;
    while value % (width * 10) == 0
      invariant 0 < width <= value && Power(width) && value % width == 0
      decreases value - width
    {
      Bound(value, width * 10);
      assert width * 10 % 10 == 0 && width * 10 / 10 == width;
      width := width * 10;
    }
    forall x: nat
      ensures value <= x <= value + width - 1 <==> x / width == value / width
    {
      SamePrefix(value, width, x);
    }
  }

  lemma Bound(value: nat, divisor: nat)
    requires value > 0 && divisor > 0 && value % divisor == 0
    ensures divisor <= value
  {}

  lemma SamePrefix(value: nat, width: nat, x: nat)
    requires width > 0 && value % width == 0
    ensures value <= x <= value + width - 1 <==> x / width == value / width
  {
    var q := value / width;
    assert value == q * width;
    assert x == x / width * width + x % width;
    if x / width < q { Steps(x / width, q, width); } else if x / width > q { Steps(q, x / width, width); }
  }

  lemma Steps(a: int, b: int, width: nat)
    requires a < b
    ensures a * width + width <= b * width
  {
    assert (b - a - 1) * width >= 0;
  }

  predicate IsUnit(c: char) { c == '십' || c == '백' || c == '천' || c == '만' }

  /** "5~7만원": a first number without a unit takes the last one of the second. */
  function RangeLow(low: string, high: string): Option<nat>
    requires high != ""
  {
    var last := high[|high| - 1];
    Price(if !(exists c <- low :: IsUnit(c)) && IsUnit(last) then low + [last] else low)
  }

  function UnitOf(c: char): nat
    requires IsUnit(c)
  {
    if c == '만' then 10_000 else UnitValue(c).value
  }

  lemma {:induction false} CommasApart(a: string, b: string)
    ensures WithoutCommas(a + b) == WithoutCommas(a) + WithoutCommas(b)
    decreases |a|
  {
    if a == "" {
      assert a + b == b;
    } else {
      assert (a + b)[1..] == a[1..] + b;
      CommasApart(a[1..], b);
    }
  }

  lemma {:induction false} CommasKeep(text: string)
    ensures forall c <- WithoutCommas(text) :: c in text
    decreases |text|
  {
    if text != "" { CommasKeep(text[1..]); }
  }

  /** Without a unit, all that has been read is one number still waiting for it. */
  lemma {:induction false} ReadUnitless(s: Reading, text: string)
    requires s.total == 0 && s.section == 0 && forall c <- text :: !IsUnit(c)
    ensures var r := Read(s, text); r.total == 0 && r.section == 0
    decreases |text|
  {
    if text != "" {
      assert text[0] in text;
      assert forall c <- text[1..] :: c in text;
      ReadUnitless(ReadChar(s, text[0]), text[1..]);
    }
  }

  lemma ReadUnit(s: Reading, n: nat, unit: char)
    requires s.total == 0 && s.section == 0 && s.num == Some(n) && n > 0 && IsUnit(unit)
    ensures Value(Read(s, [unit])) == Some(n * UnitOf(unit))
  {
    ReadOne(s, unit);
    UnitChar(s, n, unit);
    UnitCounts(n, unit);
    hide ReadChar, Read, UnitOf;
  }

  lemma UnitCounts(n: nat, unit: char)
    requires IsUnit(unit)
    ensures n <= n * UnitOf(unit) && (unit == '만' ==> UnitOf(unit) == 10_000)
  {
    if unit == '만' {
      assert n <= n * 10_000;
    } else if unit == '십' {
      assert UnitOf(unit) == 10;
    } else if unit == '백' {
      assert UnitOf(unit) == 100;
    } else {
      assert UnitOf(unit) == 1000;
    }
  }

  lemma UnitChar(s: Reading, n: nat, unit: char)
    requires s.num == Some(n) && IsUnit(unit)
    ensures ReadChar(s, unit) ==
              if unit == '만' then
                Reading(s.total + (if s.section + n == 0 then 1 else s.section + n) * 10_000, 0, None, false)
              else Reading(s.total, s.section + n * UnitOf(unit), None, false)
  {
    assert HangulDigit(unit).None? && !IsDigit(unit);
    hide HangulDigit, IsDigit;
  }

  /** The last unit of the high end counts for a low end that has none of its own, however that is written; any other
      low end is read as it stands. */
  lemma RangeSharesUnit(low: string, high: string)
    requires high != ""
    ensures var last := high[|high| - 1];
            if (exists c <- low :: IsUnit(c)) || !IsUnit(last) then RangeLow(low, high) == Price(low)
            else Price(low).Some? ==> RangeLow(low, high) == Some(Price(low).value * UnitOf(last))
  {
    var last := high[|high| - 1];
    if (forall c <- low :: !IsUnit(c)) && IsUnit(last) && Price(low).Some? {
      var text := WithoutCommas(low);
      CommasKeep(low);
      CommasApart(low, [last]);
      assert WithoutCommas([last]) == [last];
      ReadUnitless(BLANK, text);
      ReadAppend(BLANK, text, [last]);
      ReadUnit(Read(BLANK, text), Price(low).value, last);
    }
  }

  lemma {:induction false} NoCommas(text: string)
    requires ',' !in text
    ensures WithoutCommas(text) == text
    decreases |text|
  {
    if text != "" { NoCommas(text[1..]); }
  }

  lemma ReadBareMan(front: string)
    requires Holds(Read(BLANK, front), BLANK, 0)
    ensures Value(Read(BLANK, front + ['만'])) == Some(10_000)
  {
    hide ReadChar, Read, Holds;
    ReadAppend(BLANK, front, ['만']);
    ReadMan(Read(BLANK, front), 0);
  }

  /** A 만 after nothing, or after zeros only, reads as ten thousand. */
  lemma BareMan(zeros: string)
    requires (forall c <- zeros :: IsDigit(c)) && Decimal(zeros) == 0
    ensures Price(zeros + ['만']) == Some(10_000)
  {
    NoCommas(zeros + ['만']);
    ReadSection(BLANK, Figures(zeros));
    hide Value, Read, WithoutCommas, Decimal;
    ReadBareMan(zeros);
  }
}
