/** The text the configuration widget builds: Python's `f"{v}x"` for an
    integer `v`, `','.join(...)`, and `str.split` as the inverse of the join. */
module Text {

  predicate IsDigit(c: char) { '0' <= c <= '9' }

  predicate AllDigits(s: string) { forall i :: 0 <= i < |s| ==> IsDigit(s[i]) }

  function DigitChar(d: nat): (c: char)
    requires d < 10
    ensures IsDigit(c) && DigitValue(c) == d
  {
    (d + '0' as int) as char
  }

  function DigitValue(c: char): (d: nat)
    requires IsDigit(c)
    ensures d < 10
  {
    c as int - '0' as int
  }

  /** The decimal digits of `n`, most significant first, without leading zeros. */
  function NatToDecimal(n: nat): (s: string)
    ensures |s| > 0 && AllDigits(s)
    ensures |s| > 1 ==> s[0] != '0'
  {
    if n < 10 then [DigitChar(n)] else NatToDecimal(n / 10) + [DigitChar(n % 10)]
  }

  /** The number a string of decimal digits denotes. */
  function DecimalValue(s: string): nat
    requires AllDigits(s)
  {
    if s == [] then 0 else DecimalValue(s[..|s| - 1]) * 10 + DigitValue(s[|s| - 1])
  }

  lemma {:induction false} DecimalRoundTrip(n: nat)
    ensures DecimalValue(NatToDecimal(n)) == n
  {
    var s := NatToDecimal(n);
    if n < 10 {
      assert s[..|s| - 1] == [];
    } else {
      assert s[..|s| - 1] == NatToDecimal(n / 10);
      DecimalRoundTrip(n / 10);
    }
  }

  /** Python's `str(v)` for an integer: a minus sign, then the digits of |v|. */
  function IntToDecimal(v: int): (s: string)
    ensures |s| > 0 && ',' !in s && 'x' !in s
  {
    if v < 0 then "-" + NatToDecimal(-v) else NatToDecimal(v)
  }

  predicate IsIntLiteral(s: string)
  {
    if |s| > 0 && s[0] == '-' then |s| > 1 && AllDigits(s[1..]) else |s| > 0 && AllDigits(s)
  }

  function IntValue(s: string): int
    requires IsIntLiteral(s)
  {
    if s[0] == '-' then -(DecimalValue(s[1..]) as int) else DecimalValue(s)
  }

  lemma {:induction false} IntRoundTrip(v: int)
    ensures IsIntLiteral(IntToDecimal(v)) && IntValue(IntToDecimal(v)) == v
  {
    if v < 0 {
      var s := IntToDecimal(v);
      assert s[1..] == NatToDecimal(-v);
      DecimalRoundTrip(-v);
    } else {
      DecimalRoundTrip(v);
    }
  }

  /** The combo-box text of a factor: `f"{v}x"`. */
  function Label(v: int): (s: string)
    ensures |s| > 0 && ',' !in s
  {
    IntToDecimal(v) + "x"
  }

  predicate IsLabel(s: string)
  {
    |s| > 1 && s[|s| - 1] == 'x' && IsIntLiteral(s[..|s| - 1])
  }

  /** The factor a label stands for. */
  function LabelValue(s: string): int
    requires IsLabel(s)
  {
    IntValue(s[..|s| - 1])
  }

  /** A label names its factor and no other: reading it back gives the value. */
  lemma {:induction false} LabelRoundTrip(v: int)
    ensures IsLabel(Label(v)) && LabelValue(Label(v)) == v
  {
    var s := Label(v);
    assert s[..|s| - 1] == IntToDecimal(v);
    IntRoundTrip(v);
  }

  /** `sep.join(parts)`. Splitting the result at the separator gives the
      parts back, provided there is a part and none contains the separator. */
  function Join(parts: seq<string>, sep: char): (s: string)
    ensures |parts| > 0 && (forall i :: 0 <= i < |parts| ==> sep !in parts[i]) ==>
              Split(s, sep) == parts
  {
    if |parts| == 0 then ""
    else if |parts| == 1 then
      if sep !in parts[0] then
        SplitWithoutSeparator(parts[0], sep);
        parts[0]
      else
        parts[0]
    else
      var rest := Join(parts[1..], sep);
      if sep !in parts[0] then
        SplitAfterPiece(parts[0], rest, sep);
        assert [parts[0]] + parts[1..] == parts;
        parts[0] + [sep] + rest
      else
        parts[0] + [sep] + rest
  }

  /** `s.split(sep)`: the pieces between separators, so never an empty list. */
  function Split(s: string, sep: char): (pieces: seq<string>)
    ensures |pieces| > 0
  {
    if |s| == 0 then [""]
    else
      var rest := Split(s[1..], sep);
      if s[0] == sep then [""] + rest else [[s[0]] + rest[0]] + rest[1..]
  }

  lemma {:induction false} SplitWithoutSeparator(w: string, sep: char)
    requires sep !in w
    ensures Split(w, sep) == [w]
  {
    if |w| > 0 {
      SplitWithoutSeparator(w[1..], sep);
      assert [w[0]] + w[1..] == w;
    }
  }

  lemma {:induction false} SplitAfterPiece(w: string, t: string, sep: char)
    requires sep !in w
    ensures Split(w + [sep] + t, sep) == [w] + Split(t, sep)
  {
    var s := w + [sep] + t;
    if |w| == 0 {
      assert s[1..] == t;
    } else {
      assert s[1..] == w[1..] + [sep] + t;
      SplitAfterPiece(w[1..], t, sep);
      assert [w[0]] + w[1..] == w;
    }
  }

  /** Whether `format` contains a `{}` placeholder. */
  predicate HasPlaceholder(format: string)
  {
    |format| >= 2 && (format[..2] == "{}" || HasPlaceholder(format[1..]))
  }

  /** `format.format(arg)` for a format with one `{}` placeholder: the first
      `{}` is replaced by `arg`; a format without one comes back unchanged. */
  function FillIn(format: string, arg: string): (r: string)
    ensures !HasPlaceholder(format) ==> r == format
  {
    if |format| < 2 then format
    else if format[..2] == "{}" then arg + format[2..]
    else [format[0]] + FillIn(format[1..], arg)
  }

  /** The argument lands exactly where the placeholder stood. */
  lemma {:induction false} FillInPlaceholder(before: string, after: string, arg: string)
    requires '{' !in before
    ensures FillIn(before + "{}" + after, arg) == before + arg + after
  {
    var format := before + "{}" + after;
    if before == [] {
      assert format[..2] == "{}" && format[2..] == after;
    } else {
      assert format[0] == before[0] && format[1..] == before[1..] + "{}" + after;
      FillInPlaceholder(before[1..], after, arg);
      assert [before[0]] + before[1..] == before;
    }
  }
}
