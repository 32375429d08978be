/**
 Durations as text and back (extension/lib/detect.js `formatDuration`, extension/lib/media.js
 `parseTime`).
 */
module Clock {
  import opened Basics

  // ---------------------------------------------------------------- numbers as text

  function DigitOf(d: nat): char
    requires d < 10
  {
    "0123456789"[d]
  }

  predicate IsDigit(c: char) {
    '0' <= c <= '9'
  }

  function ValueOf(c: char): nat
    requires IsDigit(c)
  {
    (c as int - '0' as int) as nat
  }

  /** The decimal form of `n`. */
  function Decimal(n: nat): (text: string)
    ensures text != []
  {
    if n < 10 then [DigitOf(n)] else Decimal(n / 10) + [DigitOf(n % 10)]
  }

  predicate AllDigits(text: string) {
    forall i | 0 <= i < |text| :: IsDigit(text[i])
  }

  /** The number a string of digits stands for. */
  function Number(text: string): nat
    requires AllDigits(text)
  {
    if text == [] then 0 else 10 * Number(text[..|text| - 1]) + ValueOf(text[|text| - 1])
  }

  lemma {:induction false} NumberOfDecimal(n: nat)
    ensures AllDigits(Decimal(n)) && Number(Decimal(n)) == n
  {
    if n >= 10 {
      NumberOfDecimal(n / 10);
      assert Decimal(n)[..|Decimal(n)| - 1] == Decimal(n / 10);
    } else {
      assert Decimal(n)[..0] == [];
    }
  }

  function PadTwo(text: string): string {
    if |text| >= 2 then text else if |text| == 1 then "0" + text else "00"
  }

  lemma NumberOfPadded(n: nat)
    ensures AllDigits(PadTwo(Decimal(n))) && Number(PadTwo(Decimal(n))) == n && PadTwo(Decimal(n)) != []
  {
    NumberOfDecimal(n);
    if n < 10 {
      assert PadTwo(Decimal(n)) == ['0', DigitOf(n)];
      assert ['0', DigitOf(n)][..1] == ['0'] && ['0'][..0] == [];
    }
  }

  // ---------------------------------------------------------------- printing

  /** Half-up rounding. */
  function Round(x: real): int {
    (x + 0.5).Floor
  }

  /** `seconds` is None for what is no finite number. */
  function FormatDuration(seconds: Option<real>): string {
    if seconds.None? || Round(seconds.value) < 0 then
      ""
    else
      FormatWhole(Round(seconds.value))
  }

  function FormatWhole(total: nat): string {
    FormatParts(total / 3600, total % 3600 / 60, total % 60)
  }

  function FormatParts(hours: nat, minutes: nat, secs: nat): string {
    if hours != 0 then Decimal(hours) + ":" + PadTwo(Decimal(minutes)) + ":" + PadTwo(Decimal(secs))
    else Decimal(minutes) + ":" + PadTwo(Decimal(secs))
  }

  /** Without leading zeros. */
  predicate IsPlain(text: string) {
    text != [] && (text[0] == '0' ==> text == "0")
  }

  lemma {:induction false} DecimalIsPlain(n: nat)
    ensures IsPlain(Decimal(n)) && (n > 0 ==> Decimal(n)[0] != '0')
  {
    if n >= 10 {
      DecimalIsPlain(n / 10);
    }
  }

  lemma PaddedIsTwo(n: nat)
    requires n < 100
    ensures |PadTwo(Decimal(n))| == 2
  {
    if n >= 10 {
      assert Decimal(n / 10) == [DigitOf(n / 10)];
    }
  }

  /**
   A duration is printed as minutes and seconds, or from one hour on as hours, minutes and seconds,
   between colons: after a colon in two digits and below 60, before all colons without leading zeros.
   */
  lemma DurationShape(total: nat) returns (hours: string, minutes: string, secs: string)
    ensures AllDigits(hours) && AllDigits(minutes) && AllDigits(secs)
    ensures |secs| == 2 && Number(secs) < 60 && Number(minutes) < 60
    ensures total < 3600 ==> hours == "" && IsPlain(minutes) && FormatWhole(total) == minutes + ":" + secs
    ensures total >= 3600 ==>
              IsPlain(hours) && hours != "0" && |minutes| == 2 && FormatWhole(total) == hours + ":" + minutes + ":" + secs
    ensures total == Number(hours) * 3600 + Number(minutes) * 60 + Number(secs)
  {
    PartsMakeWhole(total);
    hours, minutes, secs := PartsShape(total / 3600, total % 3600 / 60, total % 60);
  }

  lemma PartsShape(h: nat, m: nat, s: nat) returns (hours: string, minutes: string, secs: string)
    requires m < 60 && s < 60
    ensures AllDigits(hours) && AllDigits(minutes) && AllDigits(secs)
    ensures |secs| == 2 && Number(secs) == s && Number(minutes) == m && Number(hours) == h
    ensures h == 0 ==> hours == "" && IsPlain(minutes) && FormatParts(h, m, s) == minutes + ":" + secs
    ensures h > 0 ==>
              IsPlain(hours) && hours != "0" && |minutes| == 2 && FormatParts(h, m, s) == hours + ":" + minutes + ":" + secs
  {
    hide Decimal, Number, PadTwo;
    NumberOfDecimal(h);
    NumberOfDecimal(m);
    NumberOfPadded(m);
    NumberOfPadded(s);
    PaddedIsTwo(m);
    PaddedIsTwo(s);
    DecimalIsPlain(h);
    DecimalIsPlain(m);
    NumberOfNothing();
    secs := PadTwo(Decimal(s));
    if h == 0 {
      hours, minutes := "", Decimal(m);
    } else {
      hours, minutes := Decimal(h), PadTwo(Decimal(m));
    }
  }

  lemma NumberOfNothing()
    ensures AllDigits("") && Number("") == 0
  {
  }

  // ---------------------------------------------------------------- reading

  predicate IsBlank(c: char) {
    c == ' ' || c == '\t' || c == '\n' || c == '\r'
  }

  function TrimLeft(text: string): string {
    if text != [] && IsBlank(text[0]) then TrimLeft(text[1..]) else text
  }

  function TrimRight(text: string): string {
    if text != [] && IsBlank(text[|text| - 1]) then TrimRight(text[..|text| - 1]) else text
  }

  function Trim(text: string): string {
    TrimRight(TrimLeft(text))
  }

  /** The pieces between the separators. */
  function Split(text: string, sep: char): (parts: seq<string>)
    ensures parts != []
  {
    if text == [] then
      [[]]
    else
      var rest := Split(text[1..], sep);
      if text[0] == sep then [[]] + rest else [[text[0]] + rest[0]] + rest[1..]
  }

  /** Digits, at least one. */
  predicate IsWhole(part: string) {
    part != [] && AllDigits(part)
  }

  /** Digits, and perhaps a point and digits after it. */
  predicate IsDecimal(part: string) {
    var halves := Split(part, '.');
    |halves| <= 2 && forall i | 0 <= i < |halves| :: IsWhole(halves[i])
  }

  function TenTo(n: nat): (p: nat)
    ensures p >= 1
  {
    if n == 0 then 1 else 10 * TenTo(n - 1)
  }

  function DecimalValue(part: string): real
    requires IsDecimal(part)
  {
    var halves := Split(part, '.');
    Number(halves[0]) as real
    + if |halves| == 2 then Number(halves[1]) as real / TenTo(|halves[1]|) as real else 0.0
  }

  predicate IsValidPart(parts: seq<string>, i: nat)
    requires i < |parts|
  {
    if i == |parts| - 1 then IsDecimal(parts[i]) else IsWhole(parts[i])
  }

  function PartValue(parts: seq<string>, i: nat): real
    requires i < |parts| && IsValidPart(parts, i)
  {
    if i == |parts| - 1 then DecimalValue(parts[i]) else Number(parts[i]) as real
  }

  predicate AreValid(parts: seq<string>) {
    && |parts| <= 3
    && (forall i | 0 <= i < |parts| :: IsValidPart(parts, i))
    && (forall i | 1 <= i < |parts| :: PartValue(parts, i) < 60.0)
  }

  /** Each part after `total` so far, sixty of it making one of the one before. */
  function Total(parts: seq<string>, i: nat, total: real): real
    requires AreValid(parts) && i <= |parts|
    decreases |parts| - i
  {
    if i == |parts| then total else Total(parts, i + 1, total * 60.0 + PartValue(parts, i))
  }

  /** Up to three parts, each sixty of the next, summed to seconds; None stands for the NaN of other text. */
  function ParseTime(text: string): Option<real> {
    var parts := Split(Trim(text), ':');
    if AreValid(parts) then Some(Total(parts, 0, 0.0)) else None
  }

  // ---------------------------------------------------------------- round trip

  lemma {:induction false} SplitWithout(text: string, sep: char)
    requires sep !in text
    ensures Split(text, sep) == [text]
  {
    if text != [] {
      SplitWithout(text[1..], sep);
      assert [text[0]] + text[1..] == text;
    }
  }

  lemma {:induction false} SplitAtFirst(head: string, sep: char, tail: string)
    requires sep !in head
    ensures Split(head + [sep] + tail, sep) == [head] + Split(tail, sep)
  {
    var text := head + [sep] + tail;
    if head == [] {
      assert text[1..] == tail;
    } else {
      SplitAtFirst(head[1..], sep, tail);
      assert text[1..] == head[1..] + [sep] + tail;
      assert [head[0]] + head[1..] == head;
    }
  }

  lemma NothingToTrim(text: string)
    requires text != [] && !IsBlank(text[0]) && !IsBlank(text[|text| - 1])
    ensures Trim(text) == text
  {
  }

  lemma DigitsAreWholeAndDecimal(part: string)
    requires IsWhole(part)
    ensures IsDecimal(part) && DecimalValue(part) == Number(part) as real
  {
    assert '.' !in part;
    SplitWithout(part, '.');
  }

  lemma TotalOfTwo(a: string, b: string)
    requires IsWhole(a) && IsWhole(b) && Number(b) < 60
    ensures AreValid([a, b]) && Total([a, b], 0, 0.0) == (Number(a) * 60 + Number(b)) as real
  {
    DigitsAreWholeAndDecimal(b);
    var parts := [a, b];
    assert IsValidPart(parts, 0) && PartValue(parts, 0) == Number(a) as real;
    assert IsValidPart(parts, 1) && PartValue(parts, 1) == Number(b) as real;
    assert Total(parts, 1, Number(a) as real) == Total(parts, 2, Number(a) as real * 60.0 + Number(b) as real);
  }

  lemma TotalOfThree(a: string, b: string, c: string)
    requires IsWhole(a) && IsWhole(b) && IsWhole(c) && Number(b) < 60 && Number(c) < 60
    ensures AreValid([a, b, c]) && Total([a, b, c], 0, 0.0) == ((Number(a) * 60 + Number(b)) * 60 + Number(c)) as real
  {
    DigitsAreWholeAndDecimal(c);
    var parts := [a, b, c];
    assert IsValidPart(parts, 0) && PartValue(parts, 0) == Number(a) as real;
    assert IsValidPart(parts, 1) && PartValue(parts, 1) == Number(b) as real;
    assert IsValidPart(parts, 2) && PartValue(parts, 2) == Number(c) as real;
    HoursMinutesSeconds(parts, Number(a), Number(b), Number(c));
  }

  lemma HoursMinutesSeconds(parts: seq<string>, h: nat, m: nat, s: nat)
    requires AreValid(parts) && |parts| == 3
    requires PartValue(parts, 0) == h as real && PartValue(parts, 1) == m as real && PartValue(parts, 2) == s as real
    ensures Total(parts, 0, 0.0) == ((h * 60 + m) * 60 + s) as real
  {
    var sum := h as real * 60.0 + m as real;
    assert Total(parts, 2, sum) == sum * 60.0 + s as real;
    assert Total(parts, 1, h as real) == Total(parts, 2, sum);
    assert Total(parts, 0, 0.0) == Total(parts, 1, h as real);
  }

  lemma SplitInTwo(a: string, b: string)
    requires IsWhole(a) && IsWhole(b)
    ensures Split(Trim(a + ":" + b), ':') == [a, b]
  {
    NothingToTrim(a + ":" + b);
    assert ':' !in a && ':' !in b;
    SplitAtFirst(a, ':', b);
    SplitWithout(b, ':');
  }

  lemma SplitInThree(a: string, b: string, c: string)
    requires IsWhole(a) && IsWhole(b) && IsWhole(c)
    ensures Split(Trim(a + ":" + b + ":" + c), ':') == [a, b, c]
  {
    NothingToTrim(a + ":" + b + ":" + c);
    assert ':' !in a && ':' !in b && ':' !in c;
    assert a + ":" + b + ":" + c == a + [':'] + (b + [':'] + c);
    SplitAtFirst(a, ':', b + [':'] + c);
    SplitAtFirst(b, ':', c);
    SplitWithout(c, ':');
  }

  lemma TimeOfTwo(a: string, b: string)
    requires IsWhole(a) && IsWhole(b) && Number(b) < 60
    ensures ParseTime(a + ":" + b) == Some((Number(a) * 60 + Number(b)) as real)
  {
    SplitInTwo(a, b);
    TotalOfTwo(a, b);
  }

  lemma TimeOfThree(a: string, b: string, c: string)
    requires IsWhole(a) && IsWhole(b) && IsWhole(c) && Number(b) < 60 && Number(c) < 60
    ensures ParseTime(a + ":" + b + ":" + c) == Some(((Number(a) * 60 + Number(b)) * 60 + Number(c)) as real)
  {
    SplitInThree(a, b, c);
    TotalOfThree(a, b, c);
  }

  lemma ParseOfParts(hours: nat, minutes: nat, secs: nat)
    requires minutes < 60 && secs < 60
    ensures ParseTime(FormatParts(hours, minutes, secs)) == Some(((hours * 60 + minutes) * 60 + secs) as real)
  {
    hide Decimal, PadTwo, ParseTime, Number, AllDigits;
    NumberOfPadded(secs);
    if hours != 0 {
      NumberOfDecimal(hours);
      NumberOfPadded(minutes);
      TimeOfThree(Decimal(hours), PadTwo(Decimal(minutes)), PadTwo(Decimal(secs)));
    } else {
      NumberOfDecimal(minutes);
      TimeOfTwo(Decimal(minutes), PadTwo(Decimal(secs)));
    }
  }

  lemma PartsMakeWhole(total: nat)
    ensures total % 3600 / 60 < 60 && total % 60 < 60
    ensures (total / 3600 * 60 + total % 3600 / 60) * 60 + total % 60 == total
  {
  }

  lemma ParseOfWhole(total: nat)
    ensures ParseTime(FormatWhole(total)) == Some(total as real)
  {
    PartsMakeWhole(total);
    ParseOfParts(total / 3600, total % 3600 / 60, total % 60);
  }

  /** Reading a printed duration gives the nearest whole second to what it was printed from, of two the later. */
  lemma ParseOfFormat(seconds: real)
    requires seconds >= -0.5
    ensures var read := ParseTime(FormatDuration(Some(seconds)));
            read.Some? && read.value == read.value.Floor as real && seconds - 0.5 < read.value <= seconds + 0.5
  {
    ParseOfWhole(Round(seconds));
  }

  /** The clip form fills in a video's current time, rounded down, and reads that second back. */
  lemma CurrentTimeReadsBack(time: real)
    requires time >= 0.0
    ensures ParseTime(FormatDuration(Some(time.Floor as real))) == Some(time.Floor as real)
  {
    assert Round(time.Floor as real) == time.Floor;
    ParseOfWhole(time.Floor);
    hide ParseTime, FormatWhole;
  }

  /** What prints to nothing is exactly what has no whole seconds from zero up, and it reads as no time. */
  lemma NothingPrinted(seconds: Option<real>)
    ensures FormatDuration(seconds) == "" <==> seconds.None? || seconds.value < -0.5
    ensures ParseTime("").None?
  {
    assert Split("", '.') == [[]] && Split("", ':') == [[]];
    assert !IsWhole(Split("", '.')[0]);
    assert !IsValidPart([[]], 0);
  }

  // ---------------------------------------------------------------- what reads as a time

  function Joined(parts: seq<string>, sep: char): string
    requires parts != []
  {
    if |parts| == 1 then parts[0] else parts[0] + [sep] + Joined(parts[1..], sep)
  }

  /** The pieces between the separators are the one way to put the text together from pieces without any. */
  lemma {:induction false} SplitIsTheParts(parts: seq<string>, sep: char)
    requires parts != [] && forall i | 0 <= i < |parts| :: sep !in parts[i]
    ensures Split(Joined(parts, sep), sep) == parts
  {
    if |parts| == 1 {
      SplitWithout(parts[0], sep);
    } else {
      SplitIsTheParts(parts[1..], sep);
      SplitAtFirst(parts[0], sep, Joined(parts[1..], sep));
    }
  }

  lemma {:induction false} SplitJoins(text: string, sep: char)
    ensures Joined(Split(text, sep), sep) == text
    ensures forall i | 0 <= i < |Split(text, sep)| :: sep !in Split(text, sep)[i]
  {
    if text != [] {
      SplitJoins(text[1..], sep);
      var rest := Split(text[1..], sep);
      assert text == [text[0]] + text[1..];
      if text[0] == sep {
        assert Split(text, sep)[1..] == rest;
        assert Joined([[]] + rest, sep) == [] + [sep] + Joined(rest, sep);
      } else {
        var first := [text[0]] + rest[0];
        assert Split(text, sep) == [first] + rest[1..];
        if |rest| > 1 {
          assert Split(text, sep)[1..] == rest[1..];
          assert first + [sep] + Joined(rest[1..], sep) == [text[0]] + (rest[0] + [sep] + Joined(rest[1..], sep));
        }
      }
    }
  }

  /** What is trimmed off is blank, and what is left neither begins nor ends so. */
  lemma {:induction false} TrimIsTheMiddle(text: string) returns (before: string, after: string)
    ensures text == before + Trim(text) + after
    ensures forall i | 0 <= i < |before| :: IsBlank(before[i])
    ensures forall i | 0 <= i < |after| :: IsBlank(after[i])
    ensures Trim(text) != "" ==> !IsBlank(Trim(text)[0]) && !IsBlank(Trim(text)[|Trim(text)| - 1])
  {
    before := LeftIsBlank(text);
    after := RightIsBlank(TrimLeft(text));
  }

  lemma {:induction false} LeftIsBlank(text: string) returns (before: string)
    ensures text == before + TrimLeft(text) && forall i | 0 <= i < |before| :: IsBlank(before[i])
    ensures TrimLeft(text) != "" ==> !IsBlank(TrimLeft(text)[0])
  {
    before := "";
    if text != [] && IsBlank(text[0]) {
      var rest := LeftIsBlank(text[1..]);
      before := [text[0]] + rest;
      assert text == [text[0]] + text[1..];
    }
  }

  lemma {:induction false} RightIsBlank(text: string) returns (after: string)
    ensures text == TrimRight(text) + after && forall i | 0 <= i < |after| :: IsBlank(after[i])
    ensures TrimRight(text) != "" ==> !IsBlank(TrimRight(text)[|TrimRight(text)| - 1]) && TrimRight(text)[0] == text[0]
  {
    after := "";
    if text != [] && IsBlank(text[|text| - 1]) {
      var n := |text| - 1;
      var rest := RightIsBlank(text[..n]);
      after := rest + [text[n]];
      assert text == text[..n] + [text[n]];
    }
  }

  /** A decimal part is digits, or digits, a point and digits, and is worth what it says. */
  lemma DecimalIs(part: string) returns (whole: string, fraction: string)
    ensures IsDecimal(part) <==> IsWhole(part) || (IsWhole(whole) && IsWhole(fraction) && part == whole + "." + fraction)
    ensures IsWhole(part) ==> DecimalValue(part) == Number(part) as real
    ensures IsDecimal(part) && !IsWhole(part) ==>
              DecimalValue(part) == Number(whole) as real + Number(fraction) as real / TenTo(|fraction|) as real
  {
    var halves := Split(part, '.');
    SplitJoins(part, '.');
    whole, fraction := "", "";
    if IsWhole(part) {
      DigitsAreWholeAndDecimal(part);
    } else if |halves| == 2 {
      whole, fraction := halves[0], halves[1];
      assert part == Joined(halves, '.') == whole + "." + fraction;
    } else if |halves| == 1 {
      assert part == halves[0];
    }
  }

  /** The last part may have a fraction, the others are whole; those after the first are below 60. */
  predicate AreTimes(parts: seq<string>) {
    1 <= |parts| <= 3
    && (forall i | 0 <= i < |parts| - 1 :: IsWhole(parts[i]))
    && IsDecimal(parts[|parts| - 1])
    && (|parts| == 3 ==> Number(parts[1]) < 60)
    && (|parts| > 1 ==> DecimalValue(parts[|parts| - 1]) < 60.0)
  }

  /**
   Text reads as a time exactly when, blanks around it aside, it is seconds, minutes and seconds, or
   hours, minutes and seconds, with colons between.
   */
  lemma ReadsExactly(text: string, parts: seq<string>)
    requires parts != [] && Trim(text) == Joined(parts, ':') && forall i | 0 <= i < |parts| :: ':' !in parts[i]
    ensures ParseTime(text) ==
            if !AreTimes(parts) then None
            else if |parts| == 1 then Some(DecimalValue(parts[0]))
            else if |parts| == 2 then Some(60.0 * Number(parts[0]) as real + DecimalValue(parts[1]))
            else Some(3600.0 * Number(parts[0]) as real + 60.0 * Number(parts[1]) as real + DecimalValue(parts[2]))
  {
    SplitIsTheParts(parts, ':');
    ValidExactly(parts);
    if AreTimes(parts) {
      TotalOfParts(parts);
    }
  }

  lemma ValidExactly(parts: seq<string>)
    requires parts != []
    ensures AreValid(parts) <==> AreTimes(parts)
  {
    hide IsDecimal, DecimalValue, Number;
    if AreValid(parts) {
      assert IsValidPart(parts, |parts| - 1);
      forall i | 0 <= i < |parts| - 1
        ensures IsWhole(parts[i])
      {
        assert IsValidPart(parts, i);
      }
      assert |parts| > 1 ==> PartValue(parts, |parts| - 1) < 60.0;
      assert |parts| == 3 ==> PartValue(parts, 1) < 60.0;
    }
  }

  lemma TotalOfParts(parts: seq<string>)
    requires AreValid(parts) && AreTimes(parts)
    ensures Total(parts, 0, 0.0) ==
            if |parts| == 1 then DecimalValue(parts[0])
            else if |parts| == 2 then 60.0 * Number(parts[0]) as real + DecimalValue(parts[1])
            else 3600.0 * Number(parts[0]) as real + 60.0 * Number(parts[1]) as real + DecimalValue(parts[2])
  {
    hide IsDecimal, DecimalValue, Number;
    var first := PartValue(parts, 0);
    assert Total(parts, 0, 0.0) == Total(parts, 1, first);
    if |parts| > 1 {
      var second := first * 60.0 + PartValue(parts, 1);
      assert Total(parts, 1, first) == Total(parts, 2, second);
      if |parts| == 3 {
        assert Total(parts, 2, second) == Total(parts, 3, second * 60.0 + PartValue(parts, 2));
      }
    }
  }
}
