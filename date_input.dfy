/**
 * The date text field: the mask applied to every keystroke, which keeps
 * digits and slashes, inserts the slash after the day and after the month and
 * caps the text at ten characters; and the formatter that writes a date picked
 * in the calendar as `DD/MM/YYYY` text.
 */
module DateInput {
  import opened Wrappers
  import opened DateService

  // ---------------------------------------------------------------------------
  // Searching text

  /** The characters `[\d/]` matches: ASCII digits and the slash. */
  predicate IsDateChar(c: char) {
    IsDigit(c) || c == '/'
  }

  /** `indexOf`: the first position of `c`, or -1. */
  function IndexOf(s: string, c: char): (r: int)
    ensures r == -1 <==> c !in s
    ensures r != -1 ==> 0 <= r < |s| && s[r] == c && c !in s[..r]
  {
    if |s| == 0 then -1
    else if s[0] == c then 0
    else
      var r := IndexOf(s[1..], c);
      if r == -1 then -1
      else
        assert s[..r + 1] == [s[0]] + s[1..][..r];
        r + 1
  }

  /** `lastIndexOf`: the last position of `c`, or -1. */
  function LastIndexOf(s: string, c: char): (r: int)
    ensures r == -1 <==> c !in s
    ensures r != -1 ==> 0 <= r < |s| && s[r] == c && c !in s[r + 1..]
  {
    if |s| == 0 then -1
    else if s[|s| - 1] == c then |s| - 1
    else
      var r := LastIndexOf(s[..|s| - 1], c);
      if r == -1 then -1
      else
        assert s[r + 1..] == s[..|s| - 1][r + 1..] + [s[|s| - 1]];
        r
  }

  /** Both searches stop at position 2 exactly when that is the only slash. */
  lemma OnlySlashAtTwo(s: string)
    ensures (IndexOf(s, '/') == 2 && LastIndexOf(s, '/') == 2) <==>
      (|s| > 2 && s[2] == '/' && forall i :: 0 <= i < |s| && i != 2 ==> s[i] != '/')
  {
    if IndexOf(s, '/') == 2 && LastIndexOf(s, '/') == 2 {
      forall i | 0 <= i < |s| && i != 2 ensures s[i] != '/' {
        if i < 2 {
          assert s[i] in s[..2];
        } else {
          assert s[i] in s[3..];
        }
      }
    }
  }

  // ---------------------------------------------------------------------------
  // The mask

  /** `replace(/[^\d/]/g, '')`: the date characters of `s`, in order. */
  function KeepDateChars(s: string): (r: string)
    ensures |r| <= |s|
    ensures forall i :: 0 <= i < |r| ==> IsDateChar(r[i])
  {
    if |s| == 0 then ""
    else (if IsDateChar(s[0]) then [s[0]] else []) + KeepDateChars(s[1..])
  }

  /** Filtering drops exactly the other characters: each date character keeps its count. */
  lemma {:induction false} KeepDateCharsCounts(s: string)
    ensures forall c :: multiset(KeepDateChars(s))[c] == if IsDateChar(c) then multiset(s)[c] else 0
  {
    if |s| > 0 {
      KeepDateCharsCounts(s[1..]);
      assert s == [s[0]] + s[1..];
    }
  }

  /** The filter works character by character: filtering a concatenation filters each part, in order. */
  lemma {:induction false} KeepDateCharsAppend(a: string, b: string)
    ensures KeepDateChars(a + b) == KeepDateChars(a) + KeepDateChars(b)
  {
    if |a| > 0 {
      KeepDateCharsAppend(a[1..], b);
      assert (a + b)[1..] == a[1..] + b;
      assert (a + b)[0] == a[0];
    } else {
      assert a + b == b;
    }
  }

  /** Text made only of date characters passes the filter unchanged. */
  lemma {:induction false} KeepDateCharsIdentity(s: string)
    requires forall i :: 0 <= i < |s| ==> IsDateChar(s[i])
    ensures KeepDateChars(s) == s
  {
    if |s| > 0 {
      KeepDateCharsIdentity(s[1..]);
    }
  }

  /**
   * When a slash is added: after two characters with no slash yet, or after
   * five characters whose only slash is the one after the day.
   */
  predicate SlashDue(t: string) {
    (|t| == 2 && '/' !in t)
    || (|t| == 5 && t[2] == '/' && forall i :: 0 <= i < 5 && i != 2 ==> t[i] != '/')
  }

  /** What the field shows after a keystroke leaves `text` in it. */
  function Masked(text: string): string {
    var kept := KeepDateChars(text);
    var grown := if SlashDue(kept) then kept + "/" else kept;
    if |grown| > 10 then grown[..10] else grown
  }

  /** `handleInputChange`: filter, then maybe append a slash, then truncate. */
  method HandleInputChange(text: string) returns (input: string)
    ensures input == Masked(text)
  {
    input := KeepDateChars(text);
    OnlySlashAtTwo(input);
    if |input| == 2 && '/' !in input {
      input := input + "/";
    } else if |input| == 5 && IndexOf(input, '/') == 2 && LastIndexOf(input, '/') == 2 {
      input := input + "/";
    }
    if |input| > 10 {
      input := input[..10];
    }
  }

  /** The masked text holds only digits and slashes, and at most ten characters. */
  lemma MaskedShape(text: string)
    ensures |Masked(text)| <= 10
    ensures forall i :: 0 <= i < |Masked(text)| ==> IsDateChar(Masked(text)[i])
  {
    var kept := KeepDateChars(text);
    var grown := if SlashDue(kept) then kept + "/" else kept;
    assert forall i :: 0 <= i < |grown| ==> IsDateChar(grown[i]);
  }

  /** Filtered text longer than ten characters keeps its first ten. */
  lemma LongInputTruncated(text: string)
    requires |KeepDateChars(text)| > 10
    ensures Masked(text) == KeepDateChars(text)[..10]
  {
  }

  /** Masking what the field already shows changes nothing. */
  lemma MaskIdempotent(text: string)
    ensures Masked(Masked(text)) == Masked(text)
  {
    var m := Masked(text);
    MaskedShape(text);
    KeepDateCharsIdentity(m);
    var kept := KeepDateChars(text);
    if |m| == 2 {
      assert !SlashDue(kept) && kept == m;
    } else if |m| == 5 {
      assert !SlashDue(kept) && kept == m;
    }
  }

  // ---------------------------------------------------------------------------
  // Formatting a picked date

  /** `String(n)` of a natural number: its decimal digits, without leading zeros. */
  function DecimalText(n: nat): (t: string)
    ensures 0 < |t|
    ensures forall i :: 0 <= i < |t| ==> IsDigit(t[i])
  {
    var last := [('0' as int + n % 10) as char];
    if n < 10 then last else DecimalText(n / 10) + last
  }

  /** `String(n)` of an integer: a minus sign before the digits of a negative one. */
  function IntText(n: int): string {
    if n < 0 then "-" + DecimalText(-n) else DecimalText(n)
  }

  /** `padStart(2, '0')`. */
  function PadStart2(s: string): (t: string)
    ensures |t| == if |s| < 2 then 2 else |s|
  {
    if |s| == 0 then "00" else if |s| == 1 then "0" + s else s
  }

  /** `handleDateSelect`: day and month padded to two digits, then the year as written. */
  function FormatPickedDate(d: Date): string
    requires 1 <= d.month <= 12 && 1 <= d.day <= 31
  {
    PadStart2(DecimalText(d.day)) + "/" + PadStart2(DecimalText(d.month)) + "/" + IntText(d.year)
  }

  /** Reading the digits back gives the number. */
  lemma {:induction false} DecimalTextValue(n: nat)
    ensures DecimalValue(DecimalText(n)) == n
  {
    var t := DecimalText(n);
    if n >= 10 {
      DecimalTextValue(n / 10);
      assert t[..|t| - 1] == DecimalText(n / 10);
    }
  }

  function Pow10(k: nat): (p: nat)
    ensures p >= 1
  {
    if k == 0 then 1 else 10 * Pow10(k - 1)
  }

  /** A number has more than `k` digits exactly when it is at least ten to the `k`. */
  lemma {:induction false} MoreDigitsThan(n: nat, k: nat)
    requires 1 <= k
    ensures |DecimalText(n)| > k <==> n >= Pow10(k)
  {
    if k > 1 && n >= 10 {
      MoreDigitsThan(n / 10, k - 1);
      var p := Pow10(k - 1);
      assert n / 10 >= p <==> n >= 10 * p;
    }
  }

  /** Numbers from 1000 to 9999 have four digits, and only they. */
  lemma FourDigits(n: nat)
    ensures |DecimalText(n)| == 4 <==> 1000 <= n <= 9999
  {
    MoreDigitsThan(n, 3);
    MoreDigitsThan(n, 4);
    assert Pow10(3) == 1000 && Pow10(4) == 10000;
  }

  /** A leading zero does not change the value. */
  lemma {:induction false} LeadingZero(t: string)
    requires forall i :: 0 <= i < |t| ==> IsDigit(t[i])
    ensures DecimalValue("0" + t) == DecimalValue(t)
  {
    if |t| > 0 {
      LeadingZero(t[..|t| - 1]);
      assert ("0" + t)[..|t|] == "0" + t[..|t| - 1];
    }
  }

  /** A day or month written by the formatter reads back as itself. */
  lemma PaddedValue(n: nat)
    requires 1 <= n <= 31
    ensures |PadStart2(DecimalText(n))| == 2
    ensures forall i :: 0 <= i < 2 ==> IsDigit(PadStart2(DecimalText(n))[i])
    ensures DecimalValue(PadStart2(DecimalText(n))) == n
  {
    DecimalTextValue(n);
    if n < 10 {
      LeadingZero(DecimalText(n));
    }
  }

  /**
   * A picked date with a four-digit year is written as text the date parser
   * accepts, and it reads back as the same date; with any other year the
   * parser rejects the text.
   */
  lemma FormatThenParse(d: Date)
    requires Valid(d)
    ensures ParseDate(FormatPickedDate(d)) == if 1000 <= d.year <= 9999 then Some(d) else None
  {
    var s := FormatPickedDate(d);
    var dd, mm, yy := PadStart2(DecimalText(d.day)), PadStart2(DecimalText(d.month)), DecimalText(d.year);
    PaddedValue(d.day);
    PaddedValue(d.month);
    FourDigits(d.year);
    if 1000 <= d.year <= 9999 {
      DecimalTextValue(d.year);
      assert s == dd + "/" + mm + "/" + yy;
      assert s[0..2] == dd && s[3..5] == mm && s[6..10] == yy;
      assert MatchesPattern(s);
      WrittenDigits(s);
      assert Written(s) == d;
    } else {
      assert |s| != 10;
    }
  }
}
